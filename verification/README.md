# Verified model of the spn build engine

spn builds C projects with a content-addressed engine. Actions consume and produce artifacts. Some actions only
report what they read after they have run, so the scheduler decides afterwards whether the result stands. This project
models that engine and proves what it promises, together with five smaller programs around it: the template
interpreter and the type lowering of the code generator, the reader of Make dependency files, the writer of response
files, and the wake-up protocol of the terminal loop.

Code that changes state step by step is a class or a method with loops here, proved against functions and
invariants on values; comparisons, formats and parsers also have a functional form. The modules, in the order they
build on one another:

- `Paths`, `Dag`, `Observations`: rooted paths, the build graph and the rules a graph must meet, observations.
- `Targets`: the index that leads from an observation to the producers of what it saw, against a scan of all artifacts.
- `Scheduler`, `Steps`, `Finishing`, `Progress`, `Rings`, `Stall`, `Run`, `Safety`: the state of a run, what each step
  keeps, why a run ends, when it stops short, and the main loop over all interleavings of workers.
- `Tight`: which sets of actions can be finished at all, in both directions.
- `Canonical`, `World`, `Cache`, `Warm`, `Ordinary`: canonical observation sets, what reads answer, the two-level cache,
  the theorem that a warm build equals a cold one, and a pair of builds that meets all its hypotheses.
- `Fence`: the cache of file digests with its time fence, under arbitrary interference.
- `Settle`: bringing a directory into line with a manifest.
- `Bytes`, `Keys`, `Streams`, `Rows`: the byte streams of cache keys, why keys may stand for them, and the rows on disk.
- `Template`, `TemplateLaws`, `Lower`, `Depfile`, `ResponseFile`, `Wake`: the programs around the engine; the laws say
  what templates mean by their texts alone.

## Assumptions

- Digests are injective: a key is what was fed into it. `Keys` proves that what is fed can be read back in one way only,
  and `Streams.StreamsAreKeys` that two keys of `Cache` are equal exactly when the streams fed for them are, unless two
  digests in them collide.
- Artifacts with a producer start a run without a digest, sources start with one (`source/core/dag/run.c:1043`).
- Whatever a worker or the outside world decides is chosen freely: when a job starts and ends, what it brings back,
  whether a commit fails, whether the run is cancelled.
- No two actions of one run share a weak key; a failed restore wrote nothing; pinned roots never change; an action is a
  decision tree of observations (its program depends on its weak key alone).
- A build takes place in a world that behaves (`Warm.Honest`): outputs are in place once their action has finished; a
  settle that wrote nothing found them in place; while a discovered action is under way, the places it observes that no
  other action produces are as in the sources. An action's own outputs are among those places only if it observes them
  itself: two builds may otherwise find them in different states. Every observation is one the index sees in full
  (`Warm.FullySeen`).
- A write stamps a file with the clock, and the clock never runs backwards.
- `u64` values are fed to digests least significant byte first, as on the machines the program is built for.
- The string library trims blank, tab, carriage return and newline, splits at the first blank, and prints decimal
  numbers without padding.

## What turned out otherwise than promised

- `spn_dag_output_overlaps` also reports outputs strictly below the path of a file or absence observation. The index of
  the scheduler leads to those only for enumerations (`Targets.AgreesWithOutputOverlaps` says exactly when the two
  agree, `Targets.DirectoryReadIsNotDeferred` gives a case where they do not, and `Tight.ReaderOvertakesWriter` a run in
  which the reader finishes before the writer). What an action waits for is all that is final when it finishes:
  `Tight.FinishExactly` finishes any set of actions that holds what each member needs, and nobody else.
- The file count on the fast path of `settle_tree` is trustworthy exactly when the names of the manifest are distinct
  (`Settle.CountIsTrustworthy`, `Settle.CountingIsNotEnough`); `Settle.SettleTree` says for any manifest when success
  means that the files are the manifest's.
- A digest recorded behind the fence is safe exactly when the path named the same inode at the stat and at the read
  (`Fence.SafeExactlyWhenSameInode`). When a path is re-pointed in between, as linking an output from the store does,
  the cache goes on to answer wrongly for the file that kept the stamp (`Fence.FileCache.RepointedDigest`).
- An observation set comes back from disk exactly when rows without enumeration carry no filter and paths without a
  root are absolute (`Rows.ObsRoundTrip`); a hint comes back without its device (`Rows.HintsRoundTrip`).
- GNU-style response files are read back exactly when no unquoted argument holds a character the tokeniser splits at.
  Vertical tab and form feed are not quoted, but the GNU library splits at them (`ResponseFile.RoundTrip`,
  `ResponseFile.VerticalTabIsNotQuoted`).
- A prerequisite in front of a blank is read back exactly when it neither begins with a quote nor ends in a backslash
  (`Depfile.NameBeforeBlank`).
- Lowering refuses to embed by value a type that is still being lowered, also where the cycle goes through an array, so
  that it depends on the root whether a schema lowers (`Lower.OrderDecides`). With nothing else in the way all roots
  lower exactly when no field by value lies on a cycle of references (`Lower.EveryRootLowers`).
- Two map fields whose owner and key spell the same entry name share the first entry. Every map has the entry it asks
  for exactly when no two of them ask for different entries under one name (`Lower.EntriesAreOwn`,
  `Lower.EntryNamesCollide`).

## Model

| member | source | states |
|---|---|---|
| Paths.AncestorsAreContainers | source/core/dag/run.c:868-875 | climbing with `path_parent` visits exactly the directories that `spn_path_within` says strictly contain the path |
| Paths.WithinParent | source/core/paths/paths.c:219-303 | a directory strictly contains a path exactly when it contains the path's parent |
| Dag.Builder.AddPath | source/core/dag/dag.c:52-68 | one artifact for each path and kind, the first one at a path is indexed, the graph stays well formed |
| Dag.Builder.ActionAddInput | source/core/dag/dag.c:111-116 | consumer lists keep mirroring consumes lists with multiplicity |
| Dag.InputKeepsWf | source/core/dag/dag.c:111-116 | adding an input keeps every rule of a well-formed graph |
| Dag.Builder.ActionAddOutput | source/core/dag/dag.c:118-147 | succeeds exactly for a free, unpinned, well-named artifact, and says which of these failed; one producer for each artifact, distinct names for each action |
| Dag.BaseNameMeans | source/core/dag/dag.c:130-132 | an output without a name takes what stands behind the last separator of its path |
| Dag.OutputKeepsWf | source/core/dag/dag.c:118-147 | adding an allowed output keeps every rule of a well-formed graph |
| Dag.Builder.Validate | source/core/dag/dag.c:158-194 | reports nothing exactly when every artifact meets the rules, otherwise the first one that does not, with the error of the rule it breaks |
| Dag.Builder.AcceptedGraph | source/core/dag/dag.c:158-194 | an accepted graph has one artifact for each path and nothing inside a produced tree |
| Targets.BuildIndex | source/core/dag/run.c:877-905 | the two tables index exactly the located outputs, by path and below every directory above them |
| Targets.VisitIsScan | source/core/dag/run.c:956-986 | the walk from one observation reaches a producer exactly when a scan of all artifacts finds an overlapping output of it |
| Targets.VisitsAreScan | source/core/dag/run.c:956-986 | the same for any number of observations |
| Targets.AgreesWithOutputOverlaps | source/core/dag/dag.c:149-156 | exactly when the index agrees with `spn_dag_output_overlaps` on one output |
| Targets.DirectoryReadIsNotDeferred | source/core/dag/run.c:956-986 | in a graph of a writer and a reader, a file observation of a directory overlaps the output below it, yet the walk leads to nobody |
| Steps.StartKeeps | source/core/dag/run.c:1083-1091 | a worker picking up a job keeps the invariant of the run |
| Steps.LandKeeps | source/core/dag/run.c:1083-1091 | a worker bringing back any permitted result keeps the invariant |
| Steps.TakeKeeps | source/core/dag/run.c:1143-1176 | taking a returned job keeps the invariant, and its inputs and recorded reads were final when it began |
| Steps.PopKeeps | source/core/dag/run.c:1229-1233 | taking the newest ready action keeps the invariant |
| Steps.SubmitKeeps | source/core/dag/run.c:1104-1141 | handing an action to the pool keeps the invariant once its recorded reads are done |
| Steps.RequeueKeeps | source/core/dag/run.c:1143-1176 | throwing an attempt away and queueing again keeps the invariant |
| Steps.ParkKeeps | source/core/dag/run.c:1104-1176 | parking and unparking keep the invariant |
| Steps.CommittedKeeps | source/core/dag/run.c:782-824 | recording the unpinned observations of an execution keeps the invariant |
| Finishing.DeferAllKeeps | source/core/dag/run.c:939-986 | any round of deferrals, with repetitions, keeps the invariant and leaves the action in one place |
| Finishing.DeferAllWaits | source/core/dag/run.c:939-986 | a round leaves the action waiting for nobody exactly when everyone it led to is done |
| Finishing.ToldOnce | source/core/dag/run.c:1053-1081 | finishing tells each consumer once for every slot that consumes one of the outputs |
| Finishing.FinishKeeps | source/core/dag/run.c:1053-1081 | finishing an action whose reads were final keeps the invariant |
| Progress.FinishBudget | source/core/dag/run.c:1213-1242 | one completion pays for every flight it may make stale |
| Stall.StalledIsRing | source/core/dag/run.c:1244-1252 | a run with nothing left to do is incomplete exactly when unfinished actions block each other in a ring of consumes and deferral edges |
| Stall.StaticCompletes | source/core/dag/run.c:1026-1081 | without discovered actions it completes exactly when no ring of actions feeds itself |
| Run.Run.constructor | source/core/dag/run.c:1026-1051 | seeding establishes the invariant and a budget below the bound on turns |
| Run.Run.FinishAction | source/core/dag/run.c:1053-1081 | the two loops do what finishing means: each consumer and waiter is counted down as often as it is listed, and wakes at zero |
| Run.Run.DeferProducer | source/core/dag/run.c:939-954 | one producer is waited for, found stale, or passed over |
| Run.Run.DeferObservations | source/core/dag/run.c:956-986 | offers exactly the producers the index leads to, in order; blocked and requeue are what they should be |
| Run.Run.Dispatch | source/core/dag/run.c:1104-1141 | a parked execution is judged again: it goes on waiting, is committed, or is flown anew; any other action waits for what its recorded set leads to, then flies; nothing else changes, within the budget |
| Run.Run.Complete | source/core/dag/run.c:1143-1176 | a returned job ends the run on an error, finishes on a hit, and is judged or committed otherwise; nothing else changes, and budget is used up |
| Run.Run.CompleteDiscovered | source/core/dag/run.c:1161-1175 | an execution is parked exactly when something it observed is unfinished, thrown away exactly when something finished after it began and changed, committed otherwise |
| Run.Run.CommitFlight | source/core/dag/run.c:1093-1102 | records the unpinned observations, then finishes the action unless the commit fails |
| Run.Run.StartJob | source/core/dag/run.c:1083-1091 | a worker notes how many actions have completed |
| Run.Run.LandJob | source/core/dag/run.c:1083-1091 | a worker brings back any outcome its kind allows |
| Run.Run.Turn | source/core/dag/run.c:1215-1242 | a turn handles one returned job or dispatches the newest ready action, after any worker steps, and uses up budget; the last one finds nothing to do; the first error is kept, with what there is to show for it |
| Run.CompletedCause | source/core/dag/run.c:1143-1176 | handling a returned job fails a run only if that job failed, or its commit |
| Run.DispatchedCause | source/core/dag/run.c:1104-1141 | dispatching fails a run only if it commits a parked execution and that fails |
| Run.Run.Execute | source/core/dag/run.c:1178-1256 | ends within 4(n+1)^2 turns; it fails exactly for a reason it names: a cancelled turn, a failed job or a failed commit; it reports a stall exactly when there is no error and some action is not done, which is when there is a ring |
| Run.DeferKeeps | source/core/dag/run.c:956-986 | a round of deferrals leaves the action waiting or everyone it read from done |
| Safety.ReadsAreFinal | source/core/dag/run.c:939-1176 | in every reachable state, whoever produces what a finished discovered action observed was done before it, and before its flight began or without having written |
| Safety.OverlappedOutputIsFinal | source/core/dag/run.c:939-1176 | the same for one executed observation and one output that `spn_dag_output_overlaps` reports, where the index agrees with it |
| Tight.FinishedIsOrderly | source/core/dag/run.c:939-1176 | in every reachable state the finished actions can be listed with everything each consumed or observed in front of it |
| Tight.FinishExactly | source/core/dag/run.c:1104-1242 | conversely, any set of actions that can be so listed is finished by some run from an empty cache in which nobody else finishes |
| Tight.ReaderOvertakesWriter | source/core/dag/run.c:956-986 | a run that ends a reader of a directory before the action that writes there, although `spn_dag_output_overlaps` reports the output |
| Tight.ReturnedExecution | source/core/dag/run.c:1143-1176 | an execution waits for whatever it saw that is unfinished; else it flies again if something it saw changed after it began, and is committed if nothing did |
| Tight.DispatchMeans | source/core/dag/run.c:1104-1141 | a dispatched action flies at once, unless what was recorded for it saw somebody unfinished; then it waits |
| Observations.RowsPartition | source/core/dag/store.c:433-456 | every row is either recorded or fed into the pinned digest, never both |
| Safety.InputsAreFinal | source/core/dag/run.c:1026-1081 | declared inputs are done before the consumer's flight begins |
| Safety.PlacesAreExclusive | source/core/dag/run.c:1026-1176 | without an error each action is in exactly one of pending, ready, in flight, deferred, done; it is queued once at most |
| Canonical.ObsOrdered | source/core/dag/run.c:497-511 | rows compare equal exactly when they are equal |
| Canonical.ObsTransitive | source/core/dag/run.c:497-511 | the order of rows is transitive |
| Canonical.StringsMean | source/core/dag/run.c:497-511 | strings are ordered by the first character in which they differ, beginnings first |
| Canonical.RowsMean | source/core/dag/run.c:497-511 | rows are ordered by root, path, kind and filter |
| Canonical.CanonicalIsUnique | source/core/dag/run.c:517-529 | a strictly ascending sequence is determined by its members |
| Canonical.CompactStep | source/core/dag/run.c:517-529 | one turn of the two-index compaction |
| Canonical.Canonicalize | source/core/dag/run.c:517-529 | in place: the front of the array becomes strictly ascending with exactly the original rows |
| Canonical.SameObservationsSameRows | source/core/dag/run.c:517-529 | equal sets of observations, in any order and multiplicity, get equal rows |
| Canonical.UnpinnedStaysCanonical | source/core/dag/store.c:433-456 | what is recorded of canonical rows is canonical |
| Canonical.DropPinned | source/core/dag/store.c:433-456 | the in-place filter keeps the unpinned rows in order |
| World.LookFrame | source/core/dag/run.c:574-605 | an observation is answered from the observed path and what lies within it alone |
| World.Members | source/core/dag/run.c:531-572 | the members of a directory are the names of its files that pass the filter, and of the directories that lead to a file whatever the filter |
| World.AnswersMean | source/core/dag/run.c:574-605 | a file is answered by its content, a directory by its listing, and only enumerations filter |
| World.Replay | source/core/dag/run.c:710-772 | an execution whose reads are answered alike reads the same and produces the same |
| World.WritersAreSeen | source/core/dag/run.c:956-986 | whoever writes a file an observation depends on is found by the scan |
| Cache.HitIsExecution | source/core/dag/run.c:673-708 | under equal keys a recorded entry is what executing now would produce, reading nothing outside the recorded set and the pinned roots |
| Cache.OfferIsExecution | source/core/dag/run.c:673-708 | whatever a lookup finds in a sound cache is what executing would give under the answers of the lookup, each row resolved at its own time |
| Cache.FiledIsSound | source/core/dag/run.c:782-824 | what a commit files is sound if the unpinned rows resolve to what the execution was told, although the pinned rows are dropped |
| Cache.TwoLevel.TryRestore | source/core/dag/run.c:462-495 | restores an entry with as many outputs as are produced, under the same names, if they settle; drops any other |
| Cache.TwoLevel.Lookup | source/core/dag/run.c:673-708 | a hit is exactly an offer that settles; a present entry that fails is dropped, everything else stays; uncacheable actions never hit |
| Cache.TwoLevel.Commit | source/core/dag/run.c:782-824 | the observation set is recorded first, and the outputs are filed under the key of the answers at the commit if they settle and every row resolves |
| Cache.DiscoveredIsFound | source/core/dag/run.c:673-824 | behind a commit a discovered action is found exactly if its unpinned rows resolve and are answered as they were, or something had been filed for their answers |
| Cache.CommitThenLookup | source/core/dag/run.c:673-824 | whatever a cache held, a lookup behind a commit restores exactly what was committed: always for a static action, under those conditions for a discovered one, never for an uncacheable one; other actions keep their entries |
| Cache.FailThenLookup | source/core/dag/run.c:480-495 | an entry whose outputs cannot be settled is forgotten: the same lookup misses next time, and what is kept for other actions stays |
| Warm.ReadsAreStable | source/core/dag/run.c:774-824 | an observation a finished action rests on is answered alike as long as it is under way: by its execution, its commit and its lookup |
| Warm.RanIsRecorded | source/core/dag/run.c:710-824 | an execution whose reads happened at any times of the flight is the one under the answers of the moment it began |
| Warm.CommitIsSound | source/core/dag/run.c:782-824 | what a build commits is sound, because its commits resolve what its executions read |
| Warm.CacheStaysSound | source/core/dag/run.c:673-824 | a cache that is sound when a build begins is sound at every time of it, finished or not |
| Warm.ReachableIsSound | source/core/dag/run.c:673-824 | every cache that a series of builds of any graphs can leave behind is sound |
| Warm.RestoredIsJustified | source/core/dag/run.c:673-708 | an action restored from a sound cache has the outputs its program gives, and rests on its recorded set as an execution rests on its own reads |
| Warm.ExecutedIsJustified | source/core/dag/run.c:710-824 | an executed action has the outputs its program gives under the answers of the moment it began |
| Warm.AnsweredAlike | source/core/dag/run.c:1083-1176 | an observation two builds both make is answered alike, wherever earlier actions agree |
| Warm.ActionsAgree | source/core/dag/run.c:673-824 | two finished builds that began with sound caches agree on the outputs of each action, by induction over completion |
| Warm.WarmEqualsCold | source/core/dag/run.c:673-824 | a finished build that began with whatever a series of builds left in the cache gives every artifact the digest of a finished build of the same setup that began with an empty cache, however the flights of either interleaved |
| Ordinary.OrdinaryCase | source/core/dag/run.c:673-824 | a build in a clean tree that executes and one that finds its output in place and hits meet everything that theorem asks for |
| Fence.SoundForEver | source/core/dag/stamp.c:5-10 | a fenced record stays right in every future of the file system |
| Fence.HashBehindFence | source/core/dag/run.c:168-186 | a stamp from before the fence and content read after it from the same inode make a right record |
| Fence.StrictnessMatters | source/core/dag/stamp.c:5-10 | without strictness two writes within one tick carry one stamp |
| Fence.SafeExactlyWhenSameInode | source/core/dag/run.c:147-188 | a fenced record is right whatever the file system looks like exactly when the content came from the stamped inode |
| Fence.FileCache.RepointedDigest | source/core/dag/run.c:147-188 | an interleaving of one digest with a re-pointed path, after which another path is answered wrongly |
| Fence.FileCache.Stat | source/core/dag/run.c:103-127 | a remembered stamp however old, or the stamp of the file the path named at some time of the call |
| Fence.FileCache.Probe | source/core/dag/stamp.c:12-32 | the probe reads a time that has been reached |
| Fence.FileCache.Admit | source/core/dag/stamp.c:34-45 | admits exactly what lies before the fence, and with a directory to probe in whatever lies before the present time |
| Fence.FileCache.Recall | source/core/dag/run.c:147-166 | a record answers exactly when its stamp is the present one, by inode first and by path second |
| Fence.FileCache.HashAndRecord | source/core/dag/run.c:168-186 | answers, recorded or not, the content of what the path named at some time of the call, and records it under the old stamp if admitted |
| Fence.FileCache.Digest | source/core/dag/run.c:147-188 | under any interference whatever is recorded from the inode it is filed under stays right for as long as the stamp matches, and an answer that was not remembered is what the path named at some time of the call; with nobody else about it succeeds for every file, answers its content, and records it if its stamp lies before the fence |
| Settle.CountingIsEnough | source/core/dag/run.c:354-376 | all entries settled and as many files as entries means the files are the manifest |
| Settle.CountIsTrustworthy | source/core/dag/run.c:354-376 | the fast path can be trusted exactly when the names of the manifest are distinct |
| Settle.CountingIsNotEnough | source/core/dag/run.c:354-376 | for repeated names a directory that passes the fast path without being the manifest |
| Settle.RemoveExtras | source/core/dag/run.c:388-398 | a removal that refuses directories with something in them never does, in reverse order: exactly the extras are removed, unless the file system holds on to one |
| Settle.StatesMean | source/core/dag/run.c:281-292 | a file is settled exactly when it is in place, and poisoned exactly when it is the very blob of its entry with other content |
| Settle.LinkStale | source/core/dag/run.c:400-407 | every stale entry becomes a link of its blob below directories that are there, the others stay as they are; nothing is ever in the way of a manifest in which no file is a directory of another |
| Settle.SettleTree | source/core/dag/run.c:303-413 | success means the files are exactly the manifest's, for repeated names exactly when it wrote and equal names carry equal digests; it fails whenever a file was written through its link, and otherwise succeeds if everything is at hand and allowed; it writes exactly when not every entry is in place or the number of files is wrong |
| Keys.ElementsArePrefixFree | source/core/dag/dag.c:263-286 | no encoding of an input, output, observation or answered observation is a prefix of another's |
| Keys.WeakIsDecodable | source/core/dag/dag.c:254-279 | equal weak streams come from equal pinned masks, identities, input kinds and digests, output kinds and names |
| Keys.StrongIsDecodable | source/core/dag/dag.c:288-301 | equal strong streams come from equal weak and pinned digests and equal rows with equal digests |
| Keys.PinnedIsDecodable | source/core/dag/dag.c:303-321 | pinned streams are equal exactly when the pinned rows are |
| Keys.KindsAreApart | source/core/dag/dag.c:254-321 | streams of different kinds are never equal |
| Streams.StreamsAreKeys | source/core/dag/dag.c:254-321 | the streams fed for two cache keys are equal exactly when the keys are, unless two digests in them collide |
| Keys.WeakSample | source/core/dag/dag.c:254-279 | the bytes of one weak key, spelt out |
| Keys.StrongSample | source/core/dag/dag.c:281-301 | the bytes of one strong key, spelt out |
| Keys.PinnedSample | source/core/dag/dag.c:303-321 | the bytes of one pinned digest, spelt out |
| Streams.SetsAreFormed | source/core/dag/dag.c:303-321 | the sets of lookups and commits are of the form that theorem asks for, and feeding their pinned rows is feeding all rows |
| Streams.MaskedRows | source/core/dag/dag.c:303-321 | the rows fed under the mask of the pinned roots are the pinned rows |
| Keys.WeakKey | source/core/dag/dag.c:254-279 | the loops feed that stream |
| Keys.StrongKey | source/core/dag/dag.c:288-301 | the loop feeds that stream |
| Keys.PinnedKey | source/core/dag/dag.c:303-321 | counting first and feeding second agree |
| Keys.Context.HashObsRow | source/core/dag/dag.c:281-286 | appends one framed row |
| Rows.PrintedPrefixFits | source/core/dag/store.c:38-52 | every number met while reading back a printed 64-bit number fits in 64 bits |
| Rows.U64ReadsBack | source/core/dag/store.c:38-52 | printed unsigned numbers are read back, and nothing behind them |
| Rows.S64ReadsBack | source/core/dag/store.c:54-66 | printed signed numbers are read back, including the smallest |
| Rows.HexReadsBack | source/core/dag/dag.c:354-375 | a digest in hex is read back |
| Rows.OutputsRoundTrip | source/core/dag/store.c:127-163 | output lists with arbitrary names come back as they were |
| Rows.ObsReadsBack | source/core/dag/store.c:165-201 | what one printed observation is read back as, and when it is refused |
| Rows.ObsRoundTrip | source/core/dag/store.c:203-233 | an observation set comes back as it was exactly when each of its rows does |
| Rows.HintsRoundTrip | source/core/dag/store.c:458-545 | flushed hints come back without their devices, those with a line break in the path are gone |
| Rows.HintsInFront | source/core/dag/store.c:500-521 | hints in front of a malformed row are kept |
| Rows.ObsSamples | source/core/dag/store.c:165-201 | what a row of each kind looks like |
| Rows.HintSample | source/core/dag/store.c:458-498 | what a hint row looks like |
| Rows.HeaderSamples | source/core/dag/store.c:127-233 | what the files look like when they hold no row: a version, and for a set the digest of its pinned rows |
| Rows.RefusedRows | source/core/dag/store.c:182-201 | other kinds, roots that do not exist and missing blanks are refused |
| Rows.Cursor.RowU64 | source/core/dag/store.c:38-52 | the accumulating loop reads what the grammar says, modulo 2^64 |
| Rows.Cursor.ParseObsRow | source/core/dag/store.c:182-201 | the cursor accepts exactly the rows of the grammar |
| Rows.Cursor.ParseHintRow | source/core/dag/store.c:473-498 | the cursor accepts exactly the rows of the grammar |
| Rows.Writer.WriteObs | source/core/dag/store.c:165-212 | refuses exactly the sets with a line break in a path, prints all others |
| Rows.Writer.WriteHints | source/core/dag/store.c:523-542 | prints every hint but those with a line break in the path |
| Rows.LoadOutputs | source/core/dag/store.c:150-163 | parses exactly well-formed files |
| Rows.LoadObs | source/core/dag/store.c:214-233 | parses exactly well-formed files |
| Rows.LoadHints | source/core/dag/store.c:500-521 | keeps a well-formed file whole; of a malformed one the file goes, and the hints in front of the first malformed row stay |
| Rows.SaveAndLoad | source/core/dag/store.c:127-163 | an output list that is written and read again is the same list |
| Template.RenderedIsClean | tools/gen/sp_template.h:322-496 | whatever renders without an error is well formed, in any scope |
| Template.RenderedIsSkipped | tools/gen/sp_template.h:322-496 | what renders without an error is skipped without an error and without output |
| Template.RunWithError | tools/gen/sp_template.h:322-496 | a body that ends the wrong way fails behind everything it wrote |
| Template.RenderBlock | tools/gen/sp_template.h:322-496 | the one-pass interpreter writes, fails and stops exactly as evaluating the parsed tree, in rendering and skipping alike |
| Template.RenderFor | tools/gen/sp_template.h:412-451 | every round renders the same body in the scope of one child and stops at the same place |
| Template.RenderIf | tools/gen/sp_template.h:453-481 | one branch at most is rendered, the other one is walked over, and the errors come in order; which one is said by `TemplateLaws.Condition` |
| Template.RenderLeaf | tools/gen/sp_template.h:382-410 | an included template is chomped, rendered one level deeper, and must not end in a stray directive |
| Template.RenderTemplate | tools/gen/sp_template.h:498-507 | rendering equals parsing to a tree and evaluating it, for the output and for the error, and always ends; the laws below say what comes out |
| TemplateLaws.Substitution | tools/gen/sp_template.h:372-380 | a name stands for the text of its innermost binding; it fails if nothing binds it, or a list does |
| TemplateLaws.Condition | tools/gen/sp_template.h:453-481 | a condition writes its first branch exactly when the innermost binding is a nonempty text or list, the second otherwise; `!` exchanges them |
| TemplateLaws.ConditionAlone | tools/gen/sp_template.h:453-481 | without a second branch it writes nothing instead |
| TemplateLaws.Loop | tools/gen/sp_template.h:412-451 | a loop writes its body once for each child, in whose scope, and then in those around the list, names are looked up |
| TemplateLaws.PlainLoop | tools/gen/sp_template.h:412-451 | a body without names is repeated as often as there are children; it fails if nothing binds the list, or a text does |
| TemplateLaws.Inclusion | tools/gen/sp_template.h:382-410 | an included template stands for its text without the last line end |
| TemplateLaws.Depth | tools/gen/sp_template.h:382-410 | templates that include each other in turn give the last one's text up to 32 deep and fail beyond that |
| TemplateLaws.OwnLines | tools/gen/sp_template.h:303-320 | block directives on lines of their own leave nothing of the lines behind |
| TemplateLaws.Unclosed | tools/gen/sp_template.h:353-358 | braces that are not closed are an error |
| TemplateLaws.Stray | tools/gen/sp_template.h:483-507 | a stray `end` or `else` is an error behind the text in front of it |
| TemplateLaws.UnclosedCondition | tools/gen/sp_template.h:453-481 | a condition without its end is an error behind its body |
| Template.LStripBlock | tools/gen/sp_template.h:303-313 | the backward scan removes exactly the indentation of a block directive |
| Template.Parser.TakeStep | tools/gen/sp_template.h:336-370 | finds the next directive with its literal text and whitespace trimming |
| Lower.Gen.Deref | tools/gen/lower.c:48-53 | follows references to the schema that is none, and ends |
| Lower.Gen.LowerField | tools/gen/lower.c:134-303 | a field is what its property asks for; on a refusal the innermost open type is stuck at its next property for one of four causes |
| Lower.KindsTell | tools/gen/lower.c:134-303 | exactly which properties have a field, and what the kind of a field tells of its property |
| Lower.Gen.LowerType | tools/gen/lower.c:305-339 | on success all types opened meanwhile are emitted, the ones before unchanged, and the recursion ends on recursive schemas; on failure the open types lead from the root to the one that is stuck |
| Lower.Gen.Lower | tools/gen/lower.c:341-344 | succeeds wherever nothing else is in the way and no walk from the root embeds one of its own types, fails where a new root is embedded by something it leads to; afterwards every known type is emitted |
| Lower.StuckMeans | tools/gen/lower.c:134-339 | with nothing else in the way, lowering is stuck only on a type that embeds one still being lowered |
| Lower.LastIsEmbeddedNowhere | tools/gen/lower.c:232-240 | the root is emitted last, so nothing it leads to embeds it |
| Lower.EveryRootLowers | tools/gen/lower.c:232-344 | with nothing else in the way, all roots lower exactly when no field by value lies on a cycle of references |
| Lower.OrderDecides | tools/gen/lower.c:232-344 | of two types, one in an array of the other and the other by value in the first, one order of lowering fails and the other succeeds |
| Lower.Closed | tools/gen/lower.c:334-338 | emitting a finished type behind all others keeps the order of by-value containment |
| Lower.EmbeddingDescends | tools/gen/lower.c:232-240 | a struct embedded by value is emitted strictly earlier |
| Lower.EmittedIsComplete | tools/gen/lower.c:305-344 | an emitted type has exactly the fields of its schema, in order, under their keys unless renamed, and every struct it needs, by value, in an array or in a map, is emitted from the right schema |
| Lower.EntriesAreOwn | tools/gen/lower.c:118-128 | every map field has the entry its property asks for exactly when no two ask for different entries under one name |
| Lower.EntryNamesCollide | tools/gen/lower.c:288-296 | owners and keys that are split differently spell the same entry name |
| Depfile.NameReadsBack | source/core/compiler/occ.c:138-202 | an escaped name is read back whole, whatever ends it |
| Depfile.NameBeforeBlank | source/core/compiler/occ.c:138-202 | exactly which names come back in front of a blank |
| Depfile.GapsAreSkipped | source/core/compiler/occ.c:85-130 | blanks, continued lines and further rules are passed over |
| Depfile.ItemsReadBack | source/core/compiler/occ.c:85-219 | names between any gaps come back in order, and then the decoder ends without an error |
| Depfile.RoundTrip | source/core/compiler/occ.c:85-219 | a dependency file as GCC writes it gives back exactly its prerequisites |
| Depfile.WithoutColon | source/core/compiler/occ.c:85-219 | a text without a colon is an error unless it is blank |
| Depfile.ColonEnds | source/core/compiler/occ.c:85-94 | a target ends at the first colon that no slash follows, on its line |
| Depfile.InQuotes | source/core/compiler/occ.c:138-148 | a quoted name is read up to its closing quote; a missing one and a name that is too long are errors |
| Depfile.BrokenContinuation | source/core/compiler/occ.c:112-126 | a backslash and a lone carriage return are an error |
| Depfile.Parser.SeekNext | source/core/compiler/occ.c:96-130 | finds the next prerequisite, the end, or one of two errors |
| Depfile.Parser.ParseWord | source/core/compiler/occ.c:138-202 | undoes the escapes within the bound on the length of a name |
| Depfile.Parser.ParseQuoted | source/core/compiler/occ.c:138-148 | reads up to the closing quote on the same line |
| Depfile.Parser.Next | source/core/compiler/occ.c:214-219 | one prerequisite, or the end, or an error that stays |
| Depfile.DecodeAll | source/core/compiler/occ.c:204-219 | calling on and on ends and gives what the grammar says |
| ResponseFile.GnuQuoted | source/core/compiler/rsp.c:46-56 | a GNU-quoted argument is read back whole |
| ResponseFile.WindowsQuoted | source/core/compiler/rsp.c:22-44 | a Windows-quoted argument is read back whole, with any runs of backslashes inside and at the end |
| ResponseFile.RoundTrip | source/core/compiler/rsp.c:58-97 | the list comes back exactly when no unquoted argument holds a character the tokeniser splits at |
| ResponseFile.PlainBlanksAlwaysRoundTrip | source/core/compiler/rsp.c:6-97 | every list comes back under a tokeniser that splits at blanks, tabs and line ends only |
| ResponseFile.VerticalTabIsNotQuoted | source/core/compiler/rsp.c:6-20 | a list the GNU library does not read back |
| ResponseFile.WrittenLooks | source/core/compiler/rsp.c:6-20 | no argument is written as an empty line or a comment, and exactly which arguments are written as they are |
| ResponseFile.Writer.WriteQuotedWindows | source/core/compiler/rsp.c:22-44 | the loop with its backslash counter writes that form |
| ResponseFile.Writer.Quotes | source/core/compiler/rsp.c:6-20 | says exactly which arguments are quoted |
| ResponseFile.Writer.Render | source/core/compiler/rsp.c:90-97 | one argument a line |
| Wake.System.Push | source/core/event/event.c:45-67 | an event is buffered before its producer rings |
| Wake.System.TryClaim | source/core/core/core.c:117-124 | only the one that flips the flag makes the call |
| Wake.System.Drain | source/core/event/event.c:69-85 | events leave in the order they came, and an empty buffer rearms the flag |
| Wake.System.StoreFlag | source/core/core/core.c:126-132 | the end of the operation is signalled whatever the flag says |
| Wake.System.NoLostWakeup | source/cli/host/host.c:47-69 | a blocked loop with something to do has its doorbell set, or someone is between acting and ringing |
| Wake.System.BlockedMeansIdle | source/cli/host/host.c:47-69 | once everyone else rests, a loop that stays blocked has drained every event in order, shown all progress, and the operation is not done |
| Wake.System.RunAlone | source/cli/host/host.c:47-69 | left alone, the loop comes to rest, and by then it has drained every event in order and shown all progress |
| Wake.System.AnyRun | source/core/core/core.c:117-136 | every interleaving of all threads keeps the protocol's invariant |

## Left out

- BLAKE3, hash tables, arenas, mutexes and the thread pool itself: digests are injective, containers are maps and
  sequences, locked regions are atomic steps, any job in flight may complete next.
- Real file-system calls, symbolic links, read-only bits and process spawning; write errors of in-memory sinks.
- Trace, progress counters, statistics and diagnostics of a run, and the messages of errors.
- Blob storage (`spn_dag_store_put` and its relatives) and `spn_dag_file_cache_seed`, which records without a fence.
- Canonicalisation of paths; sub paths are taken as the source normalises them.
- The compiler flag renderers, the commands, the terminal interface beyond its loop, and the object file writers.
- Run.Run.Execute: when jobs fail or succeed, whether commits fail and when the run is cancelled are free choices; of an error it is modelled who caused it, not its code.
- Warm.WarmEqualsCold: holds in worlds that are `Warm.Honest` and for observations that are `Warm.FullySeen` (see Assumptions); that a restored blob was poisoned and dropped from the store is not modelled.
- Cache.TwoLevel.Lookup: whether settling the restored outputs succeeds is a free choice.
- Canonical.Canonicalize: the library's sort is replaced by a sorted copy with the same rows; stability and cost are not modelled.
- Fence.FileCache.Digest: one device, and `spn_dag_file_cache_seed` is left out; a path that is re-pointed between the stat and the read can spoil a record (`Fence.SafeExactlyWhenSameInode`).
- Settle.SettleTree: what the file system refuses is given beforehand; dropping poisoned blobs from the store, and changes by others while the directory is settled, are not modelled.
- Rows.Cursor.RowS64: negating the smallest 64-bit number is taken to wrap.
- Rows.HintsRoundTrip: the order in which the table yields hints is that of the given list, and a later hint for the same path is not merged with an earlier one.
- Template.RenderTemplate: write errors, and loading a directory of templates.
- Lower.Gen.LowerField: the lists of containers and included headers that the renderers use are not kept.
- Lower.Gen.Lower: union schemas (`gen_lower_union`) and the metadata enumerations.
- Depfile.RoundTrip: names GCC cannot write (empty, with a line end or a 0, beginning with a quote, ending in a backslash) are excluded; `Depfile.NameBeforeBlank` says exactly what happens to the last two kinds in front of a blank.
- ResponseFile.Writer.Render: arguments are given as strings; joining a prefix and a path is not part of this model.
- Wake.System.AnyRun: one operation and one interrupt handler; a hand-off of the terminal is decided before the loop begins.
- Tight.FinishExactly: workers may pick up jobs in any order, as everywhere in `Run`; a pool that starts jobs strictly in turn starts others too, which need not end.
