# QSOL-CONTROL: a verified model of storage, recovery and protocol loops

QSOL-CONTROL keeps what an agent asked, what it read and what it was answered as content-addressed,
append-only records, and can carry those records off site and back.  This project models the parts of
it whose correctness depends on many steps at once, and proves what they promise: the interaction log
under concurrent writers and crashes, Collections and their search index, the recovery codecs and
bundles, the ORACLE ledger, the Council arithmetic, and the quotas and framing loops around them.

`dafny verify dfyconfig.toml` checks the whole project.

## How the model is built

- **Identities.** SHA-256 over canonical JSON is an injective function, passed in as a parameter, into
  an opaque identity type (`Common.Injective`, `Vault.Hashes`, `RunLog.RunHashes`).  An identity does
  not contain what it names, so nothing is acyclic by construction: chains and graphs are proved
  acyclic where the code relies on it.
- **Records** are datatypes that already have the right fields.  JSON is an abstract codec that reads
  back what it wrote; magic bytes, the eight-byte length, path tables and payload slicing are concrete.
- **Objects that change state** are classes over maps, with the methods the source has: `ControlStore`,
  `InteractionStore`, `EdgeQuota`, `Dispatcher` with shared `QuotaState` counters, `Gateway` (quota and
  ownership), `LineReader`, `Source`.  Each method is proved against a function of the old state.
- **Concurrency.** `RunConcurrency` and `CollectionConcurrency` are state machines whose steps are the
  code's own atomic writes: exclusive lock, event or snapshot first, HEAD last.  A process may die
  between any two writes; its lock file is then cleared.  An accepted operation is a *plan*, a list of
  writes made under the lock; the class methods are proved to perform exactly the same plans.
- **Loops** of the source are methods with loops, proved to compute what a recursive definition or an
  independent predicate says.

| file | what it holds |
|---|---|
| `Common`, `Sorting`, `Vault` | options, prefixes, sorting by a key, the File and Collection records |
| `LineageDag` | the explicit-stack graph search over lineage parents |
| `RunLog`, `RunOps`, `RunPlans`, `RunAppend`, `RunLoops` | histories, the operations on runs as plans, what an append accepts and records, the loops that read histories back |
| `RunConcurrency`, `RunVerifiable`, `RunCrash` | interleavings, when a run verifies, what a crash can leave behind |
| `RunTransfer`, `InteractionStore` | fingerprint, export and import; the store as a class |
| `Collections`, `CollectionConcurrency`, `CollectionCalls`, `LexicalSearch`, `SearchAnswer`, `ControlStore` | snapshot chains, compare-and-swap, calls over time, tokens and scores, what a search answers; the store as a class |
| `DnaLattice`, `RestoreCapsule` | the 27-cell projection and the capsule container |
| `ArkTransport`, `ArkRepository`, `ArkPackage`, `ArkReconstruct` | the repository package, out and back |
| `ArkRunBundle`, `ArkRunBuild`, `ArkRunClass`, `ArkRunInstall`, `ArkRunDelivery`, `ArkRunReconstruct`, `ArkRunShared` | the one-run bundle, out and back |
| `OracleLedger`, `Council` | the hash-chained ledger with cached answers; tally, label and minority |
| `RateWindows`, `EdgeQuota`, `DispatchQuota`, `Ownership` | rate windows over any trace, two-level charging, ownership across a restart |
| `LineReader`, `StdioServer`, `ZipTail` | line framing, resynchronisation, backward search for the ZIP end record |

## What the proofs found

Each of these is a property that does not hold of the code as it stands; the model keeps the code's
behaviour and proves when the property does hold.

- **An orphan parent breaks verification.**  `append_event` accepts any stored event of the run as a
  parent (`storage/interaction_store.py:584-589`), also one whose writer died before its HEAD write.
  `RunCrash.OrphanParentBreaksVerify` builds the behaviour with a single crash.
  `RunVerifiable.AppendStaysVerifiableIff` gives the exact condition: name no parents, or only listed
  events.  Without crashes every run verifies (`RunVerifiable.CrashFreeRunsVerify`).
- **A fresh import that dies early is stranded.**  Once its first event is on disk and its HEAD is not there
  is no way back: import demands the HEAD, creation refuses to repair one while events exist
  (`RunCrash.CrashedImport`, `RunVerifiable.StrandedForever`).  `RunVerifiable.ResumableIff` gives the exact
  condition: a recorded run without HEAD can be resumed while no event of it is on disk.
- **A Collection can stay without a HEAD.**  A creation that dies after its descriptor leaves a
  Collection that later creations treat as existing and later updates cannot read
  (`CollectionCalls.CrashedCreation`, `CollectionConcurrency.CrashBeheads`,
  `CollectionConcurrency.HeadlessForever`); only a crash does this
  (`CollectionConcurrency.CrashFreeHasHead`).  `verify` then refuses the store, and that is the only thing
  a crash can make it refuse (`ControlStore.ReachableVerifies`).
- **Two Files over one object cannot be bundled.**  A run bundle has one object entry per File, and
  repeated paths are refused.  `ArkRunShared.SharedObject` is such a run; `ArkRunBuild.BundleExistsIff` says
  exactly which verified runs have a bundle, and `ArkRunReconstruct.CarryRun` that those, and only those, arrive.
- **A Council choice can be mistaken for "no disposition".**  A choice spelled like the sentinel turns
  the winners into the minority (`Council.MinorityNumbers`, `Council.SentinelClash`); likewise for the
  outcome (`Council.OutcomeReads`).
- **An ORACLE event may leave `payload_sha256` out.**  The ledger is accepted, but a query of that
  subject then fails on the missing field; `OracleLedger.FieldLeftOut` is such a ledger, and
  `OracleLedger.QueryEvidence` answers exactly when all events of the subject carry it.
- **The quotas per caller are idle.**  With the shipped equal limits (`api/common.py:17-20`) the process
  refuses first, always (`DispatchQuota.CallerLimitsIdle`).  A refused first call still leaves a
  zero entry for its caller.
- **An over-length blank line is answered, a shorter one is skipped**, because blankness is tested
  after length (`api/stdio.py:68-78`; `StdioServer.Serve`).
- **Export may be too large to import.**  Export has no size limit and import has;
  `RunTransfer.ExportImportRoundTrip` holds exactly within the limits.

## Model

| member | source | states |
|---|---|---|
| LineageDag.CheckParentDag | storage/interaction_store.py:639-667 | the explicit-stack search accepts exactly the record lists whose parents are all present and whose parent relation has no cycle; each rejection names a defect that is there; it terminates |
| LineageDag.PoppedEntryNotGrey | storage/interaction_store.py:652-654 | under the search invariant an entry frame taken off the stack is never grey, so the test at 653-654 never decides anything |
| LineageDag.WalkDescends | storage/interaction_store.py:639-667 | along any walk through a finished order the finishing index falls, so a finished search leaves no cycle |
| LineageDag.GreyParentIsCycle | storage/interaction_store.py:663-665 | meeting a grey parent exhibits a real cycle through the grey path |
| LineageDag.Explore | storage/interaction_store.py:646-667 | one round of the outer loop finishes everything reachable from its root, keeps what was finished, or reports a defect that is there |
| LineageDag.PushParents | storage/interaction_store.py:659-667 | the inner loop, last parent first, keeps the search invariant or reports a defect that is there |
| RunLog.ChainedBack | storage/interaction_store.py:611-633 | a stored chain is exactly what the backward walk from its last event returns |
| RunLog.BackGrows | storage/interaction_store.py:611-633 | adding records anywhere never changes a history that could be read before |
| RunLog.VerifiesIffLinked | storage/interaction_store.py:732-745 | on a stored history the graph search and the sequence test together hold exactly when every parent is an earlier event of the same history |
| RunLog.LinkedIsAcyclic | storage/interaction_store.py:639-667 | parents that precede their children by sequence leave nothing for the graph search to reject |
| RunLoops.ListEventsFromHead | storage/interaction_store.py:611-633 | the cursor loop answers exactly the history its HEAD denotes, over any store content; the repeat test at 619-620 never decides anything |
| RunLoops.CheckBoundObjects | storage/interaction_store.py:676-694 | accepts exactly when every File the run, its snapshot and its events bind can be read |
| RunLoops.CheckFiles | storage/interaction_store.py:676-694 | one pass over a list with the set of Files already read: accepts exactly when all of them can be read |
| RunLoops.CheckParentsPrecede | storage/interaction_store.py:734-738 | accepts exactly when every parent in the run has a smaller sequence number |
| RunLoops.VerifySnapshot | storage/interaction_store.py:732-745 | the three checks of a captured run accept exactly its meaning: acyclic and closed parents, parents first, every bound object readable |
| RunLoops.CheckImported | storage/interaction_store.py:787-802 | the first import pass accepts exactly the valid events of this run without a repeated identity or sequence |
| RunLoops.CheckLinks | storage/interaction_store.py:803-815 | the second import pass accepts exactly the contiguous, linked events whose parents are earlier |
| RunLoops.ShapeHasNoRepeats | storage/interaction_store.py:784-802 | contiguity and links already rule out repeats, so testing for them first decides nothing new |
| RunOps.SortedRefsAscend | storage/interaction_store.py:149-157 | accepted references come back strictly ascending and are a permutation of the input |
| RunOps.Strictest | storage/interaction_store.py:696-719 | the class returned is one of those collected, or PUBLIC, and none collected is stricter |
| RunPlans.PlannedEventValid | storage/interaction_store.py:572-602 | the event an append writes passes the store's own validation, carries the next sequence number and the HEAD as its predecessor |
| RunPlans.EventWriteGrows | storage/interaction_store.py:598-606 | writing an event never replaces a different one |
| RunPlans.PerformWrite | storage/interaction_store.py:598-608 | one atomic write of a well-made plan keeps the log invariant, keeps or extends every history, leaves other runs alone and does not change what the rest of the plan will yield |
| RunPlans.PlanStable | storage/interaction_store.py:216-233 | while its run is locked a plan stays well made whatever other runs and the File store do |
| RunPlans.HistoryStored | storage/interaction_store.py:611-637 | in a sound log a run with a HEAD has a stored history that ends at the HEAD and has as many events as the HEAD says |
| RunPlans.ImportIsChain | storage/interaction_store.py:784-818 | a record set that passes the checks before the lock is a valid chain whose parents are linked |
| RunPlans.ImportExtends | storage/interaction_store.py:823-846 | an accepted import continues the stored history, comparing whole events |
| RunPlans.ImportedOnDisk | storage/interaction_store.py:836-842 | after the writing loop every imported event is on disk as given and none was replaced |
| RunAppend.AppendAcceptedIff | storage/interaction_store.py:547-609 | an append is planned exactly for a run with a HEAD and a request that may continue its history; an identity collision never occurs |
| RunAppend.PlannedContinues | storage/interaction_store.py:572-599 | the planned event continues the history as the request asks: next number, HEAD as predecessor, chosen parents, ascending Files, everything else as given |
| RunAppend.PlainAppendAccepted | storage/interaction_store.py:554-583 | an append that names no parents, over known Files and with the roles of its kind, is refused only if it is derived from nothing on an empty history |
| RunConcurrency.StepKeeps | storage/interaction_store.py:216-233 | every atomic step of any interleaving of create, append and import, including a crash after which the lock file is cleared, keeps the invariant and keeps or extends every history |
| RunConcurrency.HistoriesOnlyGrow | storage/interaction_store.py:547-633 | over every interleaving, with crashes anywhere, a later history extends an earlier one and no stored record changes |
| RunConcurrency.ReachableHistoryIsChain | storage/interaction_store.py:547-633 | in every reachable state a run with a HEAD has a history whose position i holds sequence i and links to position i - 1 |
| RunConcurrency.UnlockedReadIsAtomic | storage/interaction_store.py:635-637 | reading the HEAD once and each event file at any later moments returns the history at the moment the HEAD was read |
| RunVerifiable.VerifyIffLinked | storage/interaction_store.py:732-749 | for any run with a HEAD in a sound store, verification fails only on a parent outside the history |
| RunVerifiable.CrashFreeRunsVerify | storage/interaction_store.py:747-749 | over every interleaving without crashes every run with a HEAD verifies whenever its lock is free |
| RunVerifiable.ParentsOfAppend | storage/interaction_store.py:584-589 | when no orphan event file exists, the parents an append accepts are events of the history |
| RunVerifiable.AppendStaysVerifiableIff | storage/interaction_store.py:572-608 | an accepted append keeps a verified run verifiable if and only if the caller names no parents or only listed events of the run |
| RunVerifiable.CrashStrands | storage/interaction_store.py:834-845 | a writer that dies strands its run exactly when the run record is written, the HEAD is not, and an event of the run is on disk |
| RunVerifiable.StrandedForever | storage/interaction_store.py:823-845 | a fresh import that dies between its first event and its HEAD leaves a run that no operation, in any interleaving, ever gives a HEAD |
| RunVerifiable.ResumableIff | storage/interaction_store.py:312-326 | a recorded run without HEAD is accepted by some operation if and only if no event of it is on disk, and then creating it again gives it an empty history |
| RunCrash.CrashedImport | storage/interaction_store.py:834-845 | a concrete behaviour with one crash that leaves a run stranded |
| RunCrash.OrphanParentBreaksVerify | storage/interaction_store.py:584-608 | a concrete behaviour with exactly one crash in which every append is accepted and the run no longer verifies |
| RunTransfer.FingerprintIdentifies | storage/interaction_store.py:721-730 | equal fingerprints mean the same run record and the same events |
| RunTransfer.VerifiedHasPrivacy | storage/interaction_store.py:696-719 | a run whose bound objects can be read always has a privacy class, so an export of it cannot fail |
| RunTransfer.PrivacyGrows | storage/interaction_store.py:696-719 | a store that holds the same records computes the same class |
| RunTransfer.PrivacyIsClass | storage/interaction_store.py:696-719 | a run has a class exactly when all it names can be read, and it is the strictest of what the record, the bound snapshot, every event and the Collection bring |
| RunTransfer.ClassUnique | storage/interaction_store.py:696-719 | there is only one such class |
| RunTransfer.ImportStatesClass | storage/interaction_store.py:817-818 | a record set that passes the import checks states the class of what it brings, in whatever order its events are listed |
| RunTransfer.ImportAcceptsExtensions | storage/interaction_store.py:820-846 | under the lock import accepts exactly the extensions of the stored history |
| RunTransfer.PrefixByIds | storage/interaction_store.py:827-833 | comparing event identities, as the code does, is comparing events |
| RunTransfer.ImportSearchAccepts | storage/interaction_store.py:816 | the graph search that import runs can never object |
| RunTransfer.ExportHasShape | storage/interaction_store.py:756-818 | an exported run passes the checks before the import lock, in any store with the same records, exactly when it is within the byte and event limits |
| RunTransfer.ExportImportRoundTrip | storage/interaction_store.py:756-846 | export then import succeeds exactly within those limits and over a prefix, and the copy has the same record, history and fingerprint and verifies |
| RunTransfer.ImportInstalls | storage/interaction_store.py:834-845 | after an accepted import the run is the imported one and its history the imported events |
| InteractionStore.InteractionStore.constructor | storage/interaction_store.py:188-197 | a new store over a sound File store is empty, unlocked and sound |
| InteractionStore.InteractionStore.CreateRun | storage/interaction_store.py:263-326 | succeeds exactly for a valid run that is unlocked, unless its HEAD is lost while events of it exist; a new run gets an empty history, a known one keeps its own; a refusal changes nothing |
| InteractionStore.InteractionStore.InstallRun | storage/interaction_store.py:312-326 | the body under the lock: a lost HEAD is only repaired while the run has no event records |
| InteractionStore.InteractionStore.AppendEvent | storage/interaction_store.py:547-609 | accepted exactly on an unlocked run with a HEAD for known, distinct Files, roles that fit the kind, named parents from earlier in the run, and some lineage if derived; the history then grows by one event with the fields of the request, Files and named parents ascending, and without named parents the last event as its only parent; a refusal changes nothing |
| InteractionStore.InteractionStore.NextEvent | storage/interaction_store.py:572-599 | under the lock: accepts the same requests, and the event continues the history as the request asks |
| InteractionStore.InteractionStore.CheckParents | storage/interaction_store.py:584-589 | reports the first objection to the named parents, in order |
| InteractionStore.InteractionStore.ListEvents | storage/interaction_store.py:635-637 | returns the history the current HEAD denotes, or nothing |
| InteractionStore.InteractionStore.VerifyRun | storage/interaction_store.py:669-674 | accepts exactly an unlocked run that verifies, for any store content, and answers its fingerprint |
| InteractionStore.InteractionStore.ExportRecordSet | storage/interaction_store.py:756-760 | exports exactly the unlocked runs that verify, as record and history; the class is at least that of every File in the record, the bound snapshot and every event, and of the Collection, and is PUBLIC or the class of one of them |
| InteractionStore.InteractionStore.ImportRecordSet | storage/interaction_store.py:762-846 | accepted exactly when unlocked, of the right shape and an extension of the stored history; the history is then the imported one, verifies under the imported fingerprint, and carries the class its Files and Collection demand; a refusal changes nothing |
| InteractionStore.InteractionStore.CheckShape | storage/interaction_store.py:762-818 | the checks before the lock accept exactly the record sets of the right shape |
| InteractionStore.InteractionStore.InstallImport | storage/interaction_store.py:820-845 | under the lock: nothing may be truncated or rewritten; then run, missing events and HEAD are written as planned |
| InteractionStore.InteractionStore.WriteEvents | storage/interaction_store.py:836-842 | the writing loop leaves events already on disk alone and has the effect of the planned event writes |
| InteractionStore.ImportVerifies | storage/interaction_store.py:846 | the verification that closes an accepted import always succeeds |
| InteractionStore.SearchAgrees | storage/interaction_store.py:816 | the search in the middle of the import checks never changes the answer |
| Collections.Ascending | storage/control_store.py:454-476 | the members of a snapshot are listed strictly ascending and are exactly the set |
| Collections.AscendingUnique | storage/control_store.py:454-476 | a member set has one canonical listing |
| Collections.UpdateExtendsLineage | storage/control_store.py:500-529 | an update extends the lineage by exactly one snapshot within the privacy class |
| Collections.ProposedMeans | storage/control_store.py:454-476 | a proposal is made exactly for the requests that may update the Collection, and lists exactly the members they ask for |
| Collections.UpdateAcceptedIff | storage/control_store.py:500-529 | an update is refused only for its request or a stale expectation: its identity never collides |
| Collections.PreviewPredictsUpdate | storage/control_store.py:478-529 | the specified preview foretells the specified update: same error, or same members, revision and predecessor, and "changed" exactly when HEAD will move |
| CollectionConcurrency.StepKeeps | storage/control_store.py:245-262 | every atomic step of any interleaving of creations, updates and File writes, with crashes, keeps the invariant, only adds records and only advances HEADs |
| CollectionConcurrency.OneWriter | storage/control_store.py:245-262 | two processes never have writes to one Collection outstanding together |
| CollectionConcurrency.PlanStable | storage/control_store.py:500-529 | a plan stays good while its Collection's HEAD does not move |
| CollectionConcurrency.PlanKeepsInv | storage/control_store.py:339-434 | carrying out a plan leaves a sound, grown store |
| CollectionConcurrency.HeadsOnlyAdvance | storage/control_store.py:500-529 | over every interleaving a HEAD's lineage is only extended and its revision only grows |
| CollectionConcurrency.NoAba | storage/control_store.py:500-529 | a HEAD that names one snapshot at two moments named it throughout |
| CollectionConcurrency.SupersededOnce | storage/control_store.py:500-529 | a snapshot is superseded at most once over a whole behaviour |
| CollectionConcurrency.ExpectedIsSuperseded | storage/control_store.py:500-529 | an accepted, membership-changing update that expects a HEAD plans a snapshot whose predecessor is exactly that HEAD |
| CollectionConcurrency.ReachableLineage | storage/control_store.py:232-238 | every reachable HEAD has consecutive revisions down to 0 and every snapshot on the way holds only Files no stricter than the Collection |
| CollectionConcurrency.FileStepGrows | storage/control_store.py:264-317 | storing a File again never changes a record |
| CollectionConcurrency.StepIsStoreGrowth | storage/control_store.py:245-262 | seen from the interaction log every step is growth of a sound store |
| CollectionConcurrency.CrashBeheads | storage/control_store.py:365-379 | a writer that dies leaves its Collection without HEAD, and at nobody's work, exactly when it is a creation whose descriptor is already written |
| CollectionConcurrency.CrashFreeHasHead | storage/control_store.py:339-380 | over every interleaving without crashes a Collection that nobody is creating has its HEAD |
| CollectionConcurrency.HeadlessForever | storage/control_store.py:339-380 | a creation that dies before its HEAD write leaves a Collection that nothing ever gives a HEAD |
| CollectionCalls.PlanLeft | storage/control_store.py:500-529 | over any interleaving, what a call still has to write is the end of what it planned |
| CollectionCalls.EffectSupersedes | storage/control_store.py:500-529 | a call that moves HEAD supersedes exactly the HEAD it expected when it planned |
| CollectionCalls.OneTakesEffect | storage/control_store.py:500-529 | over every interleaving, with crashes anywhere, of all calls that carry one expected HEAD of a Collection at most one ever moves it |
| CollectionCalls.CrashedCreation | storage/control_store.py:365-379 | a concrete behaviour with one crash after which a Collection has no HEAD, for good, and does not verify |
| ControlStore.ControlStore.constructor | storage/control_store.py:189-205 | a new store is empty, unlocked and sound |
| ControlStore.ControlStore.PutFile | storage/control_store.py:264-317 | stores the object and the record that names it; the File can then be read and nothing else changed |
| ControlStore.ControlStore.CreateCollection | storage/control_store.py:339-380 | succeeds exactly when its lock is free, unless the Collection is known and has no HEAD; a new Collection starts at an empty snapshot of revision 0, a known one is left as it is |
| ControlStore.ControlStore.UpdateCollection | storage/control_store.py:500-529 | accepted exactly when the lock is free, the Collection is readable, nothing is both added and removed, only members are removed, every member to be is a known File no stricter than the Collection, and the expectation matches; the members are then the old ones with the additions and without the removals, ascending: the current snapshot if these are the same, otherwise its successor, stored and made HEAD |
| ControlStore.ControlStore.ProposedUpdate | storage/control_store.py:454-476 | accepts the same requests and lists exactly the old members and additions that are not removed, ascending |
| ControlStore.ControlStore.PreviewCollectionUpdate | storage/control_store.py:478-498 | reads only; accepts the same requests as the update and lists the members it will end with; whatever the time stamp, the report has the error of the update on this store, or its HEAD, members, revision and predecessor, and says "changed" exactly when HEAD would move |
| ControlStore.WalkLineage | storage/control_store.py:844-870 | the lineage walk accepts exactly the Collections whose HEAD reaches revision 0 within the privacy class, reachable store or not, and counts the snapshots |
| ControlStore.RevisitBreaks | storage/control_store.py:844-870 | meeting a snapshot again means its revision is wrong, so the loop test only repeats the revision test |
| ControlStore.ReachableVerifies | storage/control_store.py:844-870 | on what the operations can produce a Collection verifies if and only if it has a HEAD |
| ControlStore.ControlStore.Verify | storage/control_store.py:838-886 | accepts exactly when every File can be read and every Collection verifies |
| ControlStore.ControlStore.CollectDocuments | storage/control_store.py:590-598 | ends at a member that cannot be read; otherwise the documents and the skipped members are the specified ones, in member order |
| ControlStore.ControlStore.BuildLexicalIndex | storage/control_store.py:584-628 | succeeds exactly on a readable Collection whose index lock is free; the index has one document for each member that holds text and skips exactly the others; nothing else changes |
| ControlStore.ControlStore.WriteIndex | storage/control_store.py:539-558 | an index already stored under the same identity is kept whatever its build time, otherwise this one is added; then the index HEAD names it |
| ControlStore.ControlStore.SearchLexical | storage/control_store.py:630-663 | whether the index is reused, rebuilt or already stored, the hits are the best matching text members of the current snapshot, each once with the similarity of its own text, best first, as many as match up to the limit, and what is left out ranks behind them all; it fails only on a bad query or limit, an unreadable Collection or a held index lock |
| LexicalSearch.Tokenize | storage/control_store.py:126-144 | the token loop returns the specified tokens |
| LexicalSearch.SpansAreTheRuns | storage/control_store.py:126-144 | the tokens are exactly the maximal runs of token characters, each once, in order and apart |
| LexicalSearch.TermCountsSound | storage/control_store.py:147-149 | a term map names every token once with its number of occurrences |
| LexicalSearch.CauchySchwarz | storage/control_store.py:152-160 | for every pair of term maps the squared dot product is at most the product of the norms |
| LexicalSearch.ScoreAtMostOne | storage/control_store.py:152-160 | a score lies between zero and one |
| LexicalSearch.RankedRanks | storage/control_store.py:646-663 | ranking only reorders: best score first, equal scores by File identity |
| LexicalSearch.ScoredExactly | storage/control_store.py:646-663 | the hits are exactly the Files with a positive score, each with its own score |
| SearchAnswer.ScoreIsSimilarity | storage/control_store.py:152-160 | the score of two term maps is the squared cosine counted in pairs of equal tokens of the two texts |
| SearchAnswer.DocumentsAre | storage/control_store.py:590-598 | the documents are those of the members that hold text, each once |
| SearchAnswer.SkippedAre | storage/control_store.py:590-598 | the members skipped are exactly those that hold no text |
| SearchAnswer.BruteForceAnswers | storage/control_store.py:645-663 | scoring, ranking and cutting at the limit lists the best matching members |
| SearchAnswer.AnswersUnique | storage/control_store.py:645-663 | a query has only one such answer |
| DnaLattice.EncodeBases | storage/dna_lattice.py:96-104 | each byte becomes four letters of ACGT, two bits each, high bits first |
| DnaLattice.DecodeBases | storage/dna_lattice.py:107-119 | accepts exactly valid symbols in whole bytes, and encoding the result gives the input back |
| DnaLattice.TraversalPermutes | storage/dna_lattice.py:55-76 | both traversals visit every one of the 27 cells exactly once per cycle (stride 17 is undone by 8) |
| DnaLattice.ShareFormula | storage/dna_lattice.py:157-158 | how many of the first n codons a cell receives |
| DnaLattice.CodonInCell | storage/dna_lattice.py:234-239 | in a projection that passed the length checks the reading loop never runs short, so 238-239 are never reached |
| DnaLattice.ScatteredCodon | storage/dna_lattice.py:157-159 | codon n sits at offset n / 27 of its cell |
| DnaLattice.ScatterAllGather | storage/dna_lattice.py:232-243 | scattering what the reading loop gathered gives the cells back: every cell is consumed exactly |
| DnaLattice.EncodeProjection | storage/dna_lattice.py:139-183 | succeeds exactly for the two known traversals; the letters are filled up with A to whole codons and codon n lies at place n / 27 of cell n mod 27, or 17n mod 27; lengths, content hash, histogram and identity are recorded |
| DnaLattice.CodonNumbers | storage/dna_lattice.py:122-136 | codons and the numbers 0 to 63 correspond one to one |
| DnaLattice.CodonsOrdered | storage/dna_lattice.py:122-127 | in the order of their letters |
| DnaLattice.ScatterCodons | storage/dna_lattice.py:153-160 | the assignment loop fills the cells and the histogram as specified |
| DnaLattice.ReadCodons | storage/dna_lattice.py:232-243 | the offset loop reads back the gathered string |
| DnaLattice.DecodePadded | storage/dna_lattice.py:243-268 | the length, content and histogram checks answer a byte string exactly when it is the one the gathered bases spell |
| DnaLattice.ForcedPadding | storage/dna_lattice.py:244-256 | whole codons leave exactly one possible padding count |
| DnaLattice.ChecksForce | storage/dna_lattice.py:203-268 | whatever passes every check is a projection of its bytes; only the symbols of the padding bases are free |
| DnaLattice.DecodeProjection | storage/dna_lattice.py:186-268 | answers a byte string exactly for the projections of that byte string |
| DnaLattice.EncodedIsProjection | storage/dna_lattice.py:139-268 | decoding undoes encoding for all bytes and both traversals |
| DnaLattice.AcceptedDiffersInPaddingOnly | storage/dna_lattice.py:186-268 | an accepted projection agrees with the encoder's own in every count and in all bases but at most two trailing padding bases |
| RestoreCapsule.ScheduleIsTheSortedPermutation | storage/restore_capsule.py:161-171 | the restore order is the one arrangement of the entries ordered by recovery rank and then path |
| RestoreCapsule.RestoresOutward | storage/restore_capsule.py:161-171 | near shells come back first, then middle and outer shells, resonance nodes and the wiggle zone, each by path |
| RestoreCapsule.PackCapsule | storage/restore_capsule.py:174-239 | packs exactly 1 to 4096 valid entries with distinct paths, at most 256 MiB of payload and a manifest of at most 4 MiB: magic, length, manifest of the entries in path order, their bytes; otherwise the first objection |
| RestoreCapsule.PackPermutation | storage/restore_capsule.py:174-239 | packing does not depend on the order of the entries, not even in its errors |
| RestoreCapsule.PackInjective | storage/restore_capsule.py:174-239 | equal capsule bytes hold the same entries |
| RestoreCapsule.Describe | storage/restore_capsule.py:193-211 | the listing loop describes the sorted entries and joins their bytes |
| RestoreCapsule.BigEndian | storage/restore_capsule.py:239 | the eight-byte length field has the width and the value it must have |
| RestoreCapsule.SplitCapsule | storage/restore_capsule.py:282-296 | the header checks recover exactly the only way to cut magic, length, manifest and payload, or there is none |
| RestoreCapsule.Extract | storage/restore_capsule.py:377-390 | the extraction loop answers entries exactly when the rows cut the payload without gap or remainder |
| RestoreCapsule.OrderedPaths | storage/restore_capsule.py:360-364 | accepts exactly strictly ordered paths |
| RestoreCapsule.ParseCapsule | storage/restore_capsule.py:280-395 | answers a manifest and entries exactly when the byte string says them |
| RestoreCapsule.ParseUnique | storage/restore_capsule.py:280-395 | a byte string says at most one thing |
| RestoreCapsule.PackThenParse | storage/restore_capsule.py:174-395 | parsing a packed capsule gives exactly its entries sorted by path, with their bytes |
| RestoreCapsule.VerifyCapsule | storage/restore_capsule.py:398-432 | accepts a byte string exactly when packing can produce it |
| RestoreCapsule.EncodeCapsuleDna | storage/restore_capsule.py:468-479 | succeeds exactly on canonical capsules |
| RestoreCapsule.DecodeCapsuleDna | storage/restore_capsule.py:482-503 | answers a capsule exactly for the projections of that canonical capsule |
| RestoreCapsule.CapsuleDnaRoundTrip | storage/restore_capsule.py:468-503 | decoding an encoded capsule gives its bytes back |
| ArkTransport.StreamObject | storage/ark_repository_bundle.py:448-476 | cuts an object into full pieces with a shorter last one, empty only for an empty object, that join to the object; fails exactly on more than 100,000 of them |
| ArkTransport.ChunksJoin | storage/ark_repository_bundle.py:448-476 | chunking loses nothing, for every object and every positive chunk size |
| ArkTransport.ChunkCount | storage/ark_repository_bundle.py:448-476 | one chunk per started chunk size, and at least one |
| ArkTransport.ChunksCut | storage/ark_repository_bundle.py:448-476 | all pieces but the last are full, and they join to the object |
| ArkTransport.GroupEntries | storage/ark_repository_bundle.py:495-508 | fails exactly on an entry that cannot fit alone; otherwise the groups are non-empty, within both bounds, concatenate to the input, and no order-preserving partition uses fewer |
| ArkTransport.FewestGroups | storage/ark_repository_bundle.py:495-508 | a packing in which no group could take the next entry uses no more groups than any other |
| ArkTransport.TightUnique | storage/ark_repository_bundle.py:495-508 | there is only one such packing |
| ArkRepository.FingerprintOrderless | storage/ark_repository_bundle.py:193-200 | the source fingerprint does not depend on the order in which files are listed |
| ArkRepository.FingerprintIdentifies | storage/ark_repository_bundle.py:193-200 | equal source fingerprints mean the same files byte for byte |
| ArkRepository.TransportDistinct | storage/ark_repository_bundle.py:448-492 | distinct files never share a transport path |
| ArkPackage.StreamAll | storage/ark_repository_bundle.py:479-492 | every file becomes the specified transport entries; fails exactly on an object in too many chunks |
| ArkPackage.PackAll | storage/ark_repository_bundle.py:561-575 | each group becomes a verified capsule that holds it; fails exactly when some group does not fit or there is none |
| ArkPackage.BuildPackage | storage/ark_repository_bundle.py:546-596 | succeeds exactly on the buildable origins, and the package then carries the whole origin in one tight grouping |
| ArkPackage.MergeEntries | storage/ark_repository_bundle.py:641-646 | a capsule's entries join the map exactly when no path is there twice |
| ArkPackage.LoadCapsules | storage/ark_repository_bundle.py:599-646 | a package loads exactly when it is named by its contents, every capsule is canonical and as its row has it, and no path is there twice; then as exactly the entries its capsules hold |
| ArkPackage.LoadableLoads | storage/ark_repository_bundle.py:619-646 | a package that holds given groups loads as exactly their entries |
| ArkReconstruct.WritePlain | storage/ark_repository_bundle.py:735-740 | everything but transport material is written where its path says; fails exactly on an unsupported path |
| ArkReconstruct.Reassemble | storage/ark_repository_bundle.py:691-703 | succeeds exactly when every chunk the manifest lists is there with its hash and size, and writes them one after the other |
| ArkReconstruct.RestoreObject | storage/ark_repository_bundle.py:677-705 | answers a file exactly when the manifest restores it, whoever made it, and its target is free |
| ArkReconstruct.RestoreObjects | storage/ark_repository_bundle.py:675-705 | succeeds exactly when every carrier restores an object of its own, and adds exactly those objects; when all transport entries arrived the result is exactly the files sent |
| ArkReconstruct.GroupFitsIff | storage/ark_repository_bundle.py:561-573 | a group within the grouping bounds never meets the limits on entries, payload or capsule file size: only an invalid entry or a long manifest is refused |
| ArkReconstruct.BuildableIff | storage/ark_repository_bundle.py:546-596 | an origin is buildable if and only if its store holds together, no object has too many pieces, no piece is too large, there is something to send, and its tight grouping is within the capsule count with valid entries and short manifests |
| ArkReconstruct.StoreReturns | storage/ark_repository_bundle.py:708-750 | the store read back is the store sent, with its fingerprint and count |
| ArkReconstruct.Reconstruct | storage/ark_repository_bundle.py:724-753 | for every origin, chunk size and grouping a package that carries the origin is accepted and gives back exactly its files; and no package is accepted under the fingerprint of another store |
| ArkRunBundle.SnapshotChain | storage/ark_recovery_bundle.py:102-128 | answers the lineage from revision 0 to the bound snapshot, or nothing, reachable store or not |
| ArkRunBundle.BundlePathsDistinct | storage/ark_recovery_bundle.py:176-306 | the paths of a bundle are distinct exactly when the bound Files have pairwise distinct objects |
| ArkRunBuild.GatherRows | storage/ark_recovery_bundle.py:166-171 | every bound File is read with its record and payload |
| ArkRunBuild.CollectItems | storage/ark_recovery_bundle.py:176-274 | the entry loops list run, events, Files, objects and Collection records in the specified order and classes |
| ArkRunBuild.Gather | storage/ark_recovery_bundle.py:143-171 | gathers exactly what a verified run binds; over a reachable store it fails exactly on more Files than the limit |
| ArkRunBuild.BoundLineage | storage/ark_recovery_bundle.py:102-128 | in a sound store the snapshot a verified run is bound to has its whole lineage, HEAD or not |
| ArkRunBuild.GatheredOf | storage/ark_recovery_bundle.py:143-175 | over every reachable store there is something to gather for every verified run |
| ArkRunBuild.GathersUnique | storage/ark_recovery_bundle.py:143-171 | a run determines what is gathered for it |
| ArkRunBuild.BuildArkBundle | storage/ark_recovery_bundle.py:137-310 | over every reachable store, succeeds exactly for the unlocked runs that verify, bind no more Files than the limit, none over the object of another, and make a capsule within its limits; the answer is that capsule |
| ArkRunBuild.BundleSucceedsIff | storage/ark_recovery_bundle.py:205-232 | what was gathered can be packed if and only if it is within the capsule limits and no two Files share an object; within them the refusal is the repeated path |
| ArkRunBuild.BundleExistsIff | storage/ark_recovery_bundle.py:137-310 | for every verified run of a reachable store a bundle exists if and only if those conditions on the run and the store hold, and it is a bundle of what the run binds |
| ArkRunClass.BundleClass | storage/ark_recovery_bundle.py:143-174 | the class of a bundle is INTERNAL or stricter, at least that of every File and Collection the run names, and no stricter than they demand |
| ArkRunClass.ItemsClassed | storage/ark_recovery_bundle.py:176-300 | each entry carries its own File or Collection at that record's class, or the bundle's class, is restored in its shell, and is no stricter than the bundle |
| ArkRunShared.SharedObject | storage/ark_recovery_bundle.py:205-232 | two stored Files over the same bytes and a run that binds both: the run verifies and no bundle of it exists |
| ArkRunBuild.GatheredIsOrderly | storage/ark_recovery_bundle.py:137-175 | what is gathered from a reachable store has a contiguous chain of events, distinct Files and distinct snapshots |
| ArkRunInstall.Install | storage/ark_recovery_bundle.py:366-385 | the write-to-new-file loop succeeds exactly when every listed entry is there, reads as a record and no name repeats |
| ArkRunInstall.DeliveredInstalls | storage/ark_recovery_bundle.py:366-446 | what has been delivered can be installed whatever the order of the list |
| ArkRunInstall.InstalledAre | storage/ark_recovery_bundle.py:366-446 | each record is then found under its name and nothing else is |
| ArkRunInstall.ListedOnce | storage/ark_recovery_bundle.py:436-446 | the records come back as a list that holds each of them once |
| ArkRunDelivery.ListsMatch | storage/ark_recovery_bundle.py:288-293 | the path lists of the bootstrap name exactly the records sent |
| ArkRunReconstruct.EntrySetMatches | storage/ark_recovery_bundle.py:336-341 | a packed bundle arrives with exactly the entry set its bootstrap requires |
| ArkRunReconstruct.OpenBundle | storage/ark_recovery_bundle.py:313-345 | answers a bootstrap and entries exactly when the capsule says them: no path twice, exactly the required entries, the lattice profile; the duplicate test at 319-320 never fires |
| ArkRunReconstruct.RestoreFiles | storage/ark_recovery_bundle.py:366-385 | succeeds exactly when both lists can be installed without a repeat, and holds just them |
| ArkRunReconstruct.RestoreCollection | storage/ark_recovery_bundle.py:387-423 | succeeds exactly when descriptor and snapshots are there, the run's own among them; adds just them, with HEAD at the run's snapshot |
| ArkRunReconstruct.RestoreEvents | storage/ark_recovery_bundle.py:436-450 | answers exactly the listed events, in contiguous order |
| ArkRunReconstruct.RestoreLog | storage/ark_recovery_bundle.py:425-459 | answers exactly the log of the run record, its events and the HEAD they imply |
| ArkRunReconstruct.SortedBack | storage/ark_recovery_bundle.py:447 | sorting any listing of a history by sequence gives the history |
| ArkRunReconstruct.LineageRestricted | storage/ark_recovery_bundle.py:464-484 | a lineage found in one store is found in any store with the same snapshots |
| ArkRunReconstruct.HeldVerifies | storage/ark_recovery_bundle.py:461-484 | a store that holds just the gathered records verifies the run with its history |
| ArkRunReconstruct.VerifyRestored | storage/ark_recovery_bundle.py:461-462 | accepts exactly a run that verifies in the new store, and answers its fingerprint |
| ArkRunReconstruct.Reconstruct | storage/ark_recovery_bundle.py:358-488 | a bundle built from any reachable store is accepted and gives the same run, history and fingerprint, HEAD at the run's snapshot and the chain to revision 0; whatever is accepted verifies |
| ArkRunReconstruct.CarryRun | storage/ark_recovery_bundle.py:519-543 | building and restoring, as one: for every run of every reachable store it succeeds exactly when the run is unlocked, verifies and can be bundled, and the copy is the same run with the same history, HEAD at its snapshot and the chain to revision 0 |
| OracleLedger.VerifyLedger | adapters/oracle.py:253-370 | accepts exactly the non-empty ledgers within the limit whose events are valid, numbered, hash-linked, distinct and derived only from earlier events |
| OracleLedger.PrefixAccepted | adapters/oracle.py:253-370 | every non-empty prefix of an accepted ledger is accepted |
| OracleLedger.HeadDetermines | adapters/oracle.py:253-370 | accepted ledgers with the same head hash are the same ledger |
| OracleLedger.DerivationWellFounded | adapters/oracle.py:340-358 | derived_from is closed and has no cycle |
| OracleLedger.QueryEvidence | adapters/oracle.py:402-450 | answers exactly on an accepted ledger whose events about the subject all carry the payload field; the answer names the ledger head and refers to each of these events once and in order, says conflict if any conflicts, and known exactly if something is observed, nothing conflicts and nothing was corrected |
| OracleLedger.AnswerReports | adapters/oracle.py:372-450 | the specified answer reports the ledger so |
| OracleLedger.FieldLeftOut | adapters/oracle.py:332-338 | for every subject there is an accepted ledger that cannot answer about it, because its event leaves the payload field out |
| OracleLedger.VerifyCached | adapters/oracle.py:560-587 | the check of a cached response accepts exactly the responses that hold at some position of the ledger |
| OracleLedger.CachedIffExtension | adapters/oracle.py:402-587 | a response computed at one accepted ledger passes against another if and only if the other extends it |
| OracleLedger.ConflictIsPermanent | adapters/oracle.py:372-385 | a conflict stays in every extension, and a corrected subject never becomes known again |
| Council.TopIs | adapters/nexus.py:839-843 | the top count is attained and no choice has more |
| Council.LabelByVotes | adapters/nexus.py:847-865 | with a leading choice: unanimous if there is no other; strong consensus if it reaches the threshold and four fifths; consensus if only the threshold; majority if more than half; the outcome is that choice exactly if it reaches the threshold |
| Council.NoLeader | adapters/nexus.py:842-865 | without a leading choice there is no disposition, no consensus and no outcome |
| Council.OrderDoesNotMatter | adapters/nexus.py:827-865 | disposition, label and outcome depend only on the multiset of choices |
| Council.UnanimousMeetsThreshold | adapters/nexus.py:849-865 | a unanimous result always meets the committed threshold |
| Council.AtMostOneReaches | adapters/nexus.py:846-850 | above one half no two choices can reach the threshold |
| Council.ExtraVoteNeverLowers | adapters/nexus.py:846-865 | one more vote for the sole winner keeps it and never lowers the label |
| Council.MinorityInRosterOrder | adapters/nexus.py:870-883 | the minority reports are, in roster order, exactly the ballots that did not choose the disposition |
| Council.MinorityNumbers | adapters/nexus.py:843-883 | they number total less top count, or everybody without a sole winner, if and only if no sole winner bears the sentinel name |
| Council.SentinelClash | adapters/nexus.py:843-883 | a unanimous Council that chooses the sentinel name is reported as its own minority |
| Council.OutcomeReads | adapters/nexus.py:865 | the outcome reads as no consensus exactly without a met threshold or when the winner bears that name |
| Council.CheckReveals | adapters/nexus.py:789-816 | accepts exactly when commitments and reveals follow the roster and every reveal opens its commitment |
| Council.CommitmentsFixTheResult | adapters/nexus.py:789-865 | a set of commitments can be opened in one way only, so it fixes the result |
| RateWindows.AtMostTwiceTheLimit | deployment/edge.py:314-330 | a limit per window is at most twice that limit in any half-open sixty seconds |
| RateWindows.TwoWindowsMeet | deployment/edge.py:314-330 | any sixty seconds meet at most two windows |
| EdgeQuota.EdgeQuota.Admit | deployment/edge.py:314-330 | within an open window a call passes exactly while fewer than 35 are counted; without one exactly while fewer than 2048 principals have one, and then opens a window; the first call on an empty table passes; what any other principal would be found to have, now or later, does not change |
| EdgeQuota.EdgeLimits | deployment/edge.py:314-330 | over any trace with a non-decreasing clock: at most 35 grants per window, at most 70 in any half-open minute, windows at least a minute apart |
| EdgeQuota.TableBounded | deployment/edge.py:314-330 | the table never holds more than 2048 principals |
| EdgeQuota.GrantedIff | deployment/edge.py:314-330 | over any trace, from the grants so far alone: a call is granted if and only if the principal has an open window with fewer than 35 grants, or has none and fewer than 2048 principals have one |
| EdgeQuota.OthersCannotDeny | deployment/edge.py:314-330 | a principal with an open window and grants left is admitted whoever else calls |
| DispatchQuota.Dispatcher.ChargeCaller | api/dispatcher.py:62-95 | on shared counters updated in place: refuses exactly at 1000 requests, or for a mutation at 200; otherwise the call is counted once, for the process and its caller, and nobody else's counts move |
| DispatchQuota.ChargeBalances | api/dispatcher.py:62-95 | the process counts stay the sums over the callers, mutations stay within requests, and the limits are kept |
| DispatchQuota.AllOrNothing | api/dispatcher.py:62-95 | a refused call changes no count; a charged one adds one request, and one mutation if it is one, to the process and its caller only |
| DispatchQuota.CallerLimitsIdle | api/dispatcher.py:78-89 | with caller limits no tighter than the process limits the two caller refusals never occur |
| DispatchQuota.CallerLimitReached | api/dispatcher.py:78-89 | with a tighter caller limit on requests, or on mutations, one caller alone reaches it |
| DispatchQuota.Gateway.DispatchLocal | api/remote_http.py:546-554 | renews an old window before charging, as specified |
| DispatchQuota.ChargedIff | api/remote_http.py:546-554 | over any trace, from the calls charged so far alone: a call is charged if and only if its window, a new one once a minute has passed, holds fewer than 1000 charged calls and, for a mutation, fewer than 200 |
| DispatchQuota.GatewayLimits | api/remote_http.py:546-554 | over any trace with a non-decreasing clock at most twice the process limits are charged in any half-open minute |
| Ownership.FindShaKey | api/remote_http.py:436-453 | never finds what is not there, and misses nothing in a value within the visit limit |
| Ownership.ExtractCreatedRefs | api/remote_http.py:456-478 | only references the response really names, of kinds a restart accepts, and all of them within the visit limit: a File for a stored File, a Collection for a created one, a run for a question, a replay and its run for a replay |
| Ownership.Gateway.LoadAuditOwnership | api/remote_http.py:556-583 | refuses exactly too many records or one under a wrong name; otherwise each principal owns exactly what its records say |
| Ownership.Gateway.Audit | api/remote_http.py:585-624 | adds the record, then exactly the created references of a completed request to that principal alone |
| Ownership.Restart | api/remote_http.py:485-583 | restarting rebuilds exactly the ownership held in memory if and only if the directory is within the record limit |
| LineReader.LineReader.ReadLine | adapters/nexus.py:339-369 | returns the next line and leaves the stream after its newline, or fails for a reason that depends on the stream alone and not on its chunks |
| LineReader.LineReader.ReadLines | adapters/nexus.py:339-369 | repeated reading returns the newline split of the stream, and succeeds whenever the stream has that many lines within the limit |
| LineReader.SplitUnique | adapters/nexus.py:339-369 | a stream splits into lines in one way only |
| StdioServer.Serve | api/stdio.py:56-81 | one answer per line that is over-length or not blank, in order, to the end of input |
| StdioServer.Drain | api/stdio.py:68-70 | the inner loop leaves the input exactly after the over-length line |
| StdioServer.LinesAreTheInput | api/stdio.py:56-81 | the lines are the input cut after each newline: nothing lost, no newline inside a line, only the last may lack one |
| StdioServer.Resynchronises | api/stdio.py:68-75 | after an over-length line the server resumes at the byte after its newline |
| StdioServer.LineAnswered | api/stdio.py:56-82 | every terminated line is answered on its own: whitespace with nothing, more than eight MiB with a refusal, anything else with what the handler says of just that line |
| StdioServer.LastLineAnswered | api/stdio.py:56-82 | so is a last line without a newline |
| StdioServer.OneReplyPerLine | api/stdio.py:67-81 | how many answers there are |
| ZipTail.RFind | storage/archive_safety.py:66-69 | the last signature that ends within the searched part, or none |
| ZipTail.SearchTail | storage/archive_safety.py:66-97 | the loop terminates; it reports no record exactly when there is none, and otherwise judges the last |
| ZipTail.TailHasThemAll | storage/archive_safety.py:58-64 | an end record anywhere in the file lies within the tail that is read |
| ZipTail.PreflightMemberCount | storage/archive_safety.py:49-97 | reading only the tail decides as reading the whole file: accepted, with its count, exactly when the last record whose comment reaches the end of the file is on one disk, without ZIP64 marks, of at most 10,000 members and with its directory before it; an archive as an archiver writes it is accepted (section 4.3.16 of PKWARE APPNOTE.TXT) |
| ZipTail.ReadsWhatIsWritten | storage/archive_safety.py:58-74 | reading an end record gives the fields that were written, low byte first |
| ZipTail.OrdinaryRecord | storage/archive_safety.py:74-96 | the end record of an ordinary archive is the last one and meets no objection |
| Sorting.SortedUnique | storage/restore_capsule.py:188 | with distinct keys a multiset has exactly one sorted arrangement |
| Sorting.SortPermutation | storage/restore_capsule.py:188 | sorting forgets the order in which entries with distinct keys arrive |
## Left out

- Field shapes, time stamps, secret-marker scans, authority and boundary constants: one branch each; a record here has the right shape from the start.
- `record_refs`, `oracle_refs`, `nexus_refs` and model-state payloads of runs and events: carried as opaque data that the identity covers; their canonical ordering is not modelled.
- Two failures at once: where the source raises one of several errors, the model fixes when an operation fails and what it leaves, and the order of errors only where a specification function gives it (append, update, preview, packing, charging).
- Prechecks made before a lock (`get_run`, `get_file_record`) are part of the plan computed under the lock in the concurrent models: records are only added, so an accepted precheck stays accepted.
- File-system mechanics (fsync, temporary files, modes, symbolic links, path escapes): a write is one atomic step, a lock file is created exclusively.
- Stale lock files: a crash step also clears the lock of the dead process, as an operator must; until then every operation on that run or Collection is refused.
- SHA-256, JSON, UTF-8, Unicode tables and `zipfile`: injective functions, abstract codecs and a character-class predicate, passed in as parameters.
- LexicalSearch.CauchySchwarz: over exact integers; LexicalSearch scores are exact squared cosines, so ranking agrees with the source up to rounding of its floating-point cosine.
- Semantic vectors, `register_semantic_index`, `search_semantic`, audit events of the File store and its fingerprint: easy beside the lexical index.
- ControlStore.WalkLineage: a record counts as readable here only if its own identity field is its file name, and a snapshot only if its members have no duplicates; the source checks the hash and the sorting alone, so on damaged stores it reads some records the model refuses.
- ArkRunBundle.SnapshotChain: the same holds for the chain of a run bundle, and for every other member stated for stores with damaged records.
- ArkPackage.BuildPackage: the registry checks of `_validate_canonical_store` are one parameter; that stores without orphan events, orphan snapshots or headless Collections pass them is not shown.
- ControlStore.ControlStore.Verify: covers Files and Collections; the index and audit parts of `verify` are left out.
- ControlStore.ControlStore.BuildLexicalIndex: stated for stores the operations can produce, where no index file is damaged; `get_index` re-hashing is covered by that invariant.
- InteractionStore.InteractionStore.CreateRun, AppendEvent and ImportRecordSet: stated for stores the operations can produce; reading, verifying and exporting are stated for any content.
- RunLoops.VerifySnapshot: for events with distinct identities, which a list read back from a HEAD always has.
- RestoreCapsule.ParseCapsule: says which byte strings are accepted and what they say, not which of several objections is raised.
- ArkRepository.FingerprintIdentifies: registry checks, the strictest class of a store and the names of entries are parameters with the laws they must satisfy; the size limits of bootstrap and recovery map, the schema and descriptor checks of support entries and the optional summary are left out.
- ArkRunReconstruct.Reconstruct: the new store is a value, not files; the rule that a target must not exist is part of the installing loops.
- Query answers of ORACLE: freshness, suggested searches and time locks are opaque data carried in the answer; manifests and feed receipts are left out.
- Council.CheckReveals: of the session validator only ballots, tally, label, outcome and minority are modelled; phases, world objects, evidence references and artifacts are left out.
- EdgeQuota.EdgeQuota.Admit: the lock of the threaded server is not modelled; calls happen one after the other.
- DispatchQuota.Gateway.DispatchLocal: the quota part; what the request then does is `handle`, outside this model.
- Ownership.FindShaKey: beyond the visit limit the search stops early, as in the source; what it then misses depends on member order and is only bounded from above.
- LineReader.LineReader.ReadLine: time-outs and pipe failures are left out, and the buffer after an over-limit error is not specified (the session ends).
- StdioServer.Serve: `process_line` is a function of the line, so the dispatcher's own state does not show in the answers.
- ZipTail.PreflightMemberCount: the search only; the member loop of `validate_zip_archive` needs a ZIP parser.
- `storage/replay_store.py`, `storage/model_state*.py`, `tools/`, `webui/`, HTTP handlers, TLS, threads and subprocesses: literal-equality checks or plumbing.
