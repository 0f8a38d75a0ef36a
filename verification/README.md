# A verified model of the persistence substrate

The repository keeps agents' facts, runs and plans: an append-only bitemporal fact log, recorded
trajectories that can be replayed counterfactually, a tree search over content-addressed plans,
speculation inside transactions, and a stack of effect handlers. This project models those five cores
in Dafny, in the form the source gives them: objects whose methods update their fields are classes, loops
are loops, expressions over frozen trees are functions. Each method is proved against a specification
function, and what the repository promises is proved about those functions as lemmas.

- **Fact log.** `Datoms` (datoms and the in-memory store), `Views` (time slices and `entity`), `Transact`
  (the two transactors and `branch`), `Runs` (what sequences of calls show), `Refinement` (when the fast transactor does
  what the slow one does), `Intervals` (the datoms of a call, field by field), `Tiling` (how companions divide time),
  `LiveAsserts`, `Branches` (what a branch owes to later calls on its parent), `Projection` (the
  streamed cache) and `Mirror` (when it mirrors `entity`), `Fold` (the checkpointing fold), `Writers` (interleaved
  writers) and `Quiescence` (what they leave).
- **Replay.** `Effects` (the record/replay handler), `Engine` (`record` and `replay`), `Recordings` and
  `Counterfactuals` (what the two guarantee together), `Dpo` (divergence and preference pairs), `Outcomes` (what
  trajectories and pairs hold), `Agents` (an agent that meets the contract of `replay`, and one that shows why it is
  needed).
- **Plan search.** `Plans` and `PlanLaws` (trees and actions), `Search` (`mcts_search`), `SearchFlow` and `SearchLaws`
  (conservation), `SearchEnds` (termination, how often the expander and evaluator are asked), `SearchChoices` (what
  SELECT prefers, what EXPAND adds, when the search stops).
- **Speculation and dispatch.** `Speculation` (`fold_into` over `fork_impl`), `Dispatch` (handler stacks, masks, the
  replay handler on top of a stack).
- **Plan edits and training sets.** `PlanEdits`, `TrainingSets`.

Integers are unbounded, as in Python. Times are integers and every clock reading is an argument. Content ids
and hashes stand for the value they are taken of, so they are injective here. Scores are reals.

## Where code and documentation part

The model follows the code. These lemmas show where a claim made for it fails, and where it holds.

- `transact_batch` is documented as equivalent to `transact`. Outcome and log are the same exactly when both lookups
  refuse the same fact first, or refuse none, put the same companion before every fact and supersede datoms of the
  same transactions of the log (`BatchRefinesIff`). For a call that `transact` accepts and that repeats no open assert
  of the log this means that no assert has its prior in the call hidden from one lookup (`FreshCallsAgreeIff`); a repeated one can be hidden
  without a trace (`RepeatsHideTheSplit`). A closed-interval assert between two open ones
  (`ClosedIntervalSplitsThem`) and two asserts under one colon-prefixed attribute (`ColonSplitsThem`) tell the
  transactors apart.
- An assert under a colon-prefixed attribute is stored under the bare one, but supersedes nothing that is in the log
  already (`ColonCallsOneLiveIff`); a later bare assert does supersede it (`BareCallsOneLiveIff`), and inside one
  `transact_batch` call a later assert under the same raw attribute does.
- A forced retroactive correction leaves the old value showing where the prior it corrects is what `entity` shows
  (`OverwriteOfWinner`). In general it shows exactly when its value is not its prior's, no retract names it and no open
  assert of its key is later (`ForcedShowsIff`), so only after the prior was itself retracted. One with its prior's
  own value is closed by its own companion.
- `DictProjection` is said to mirror `entity`. After every run of unforced calls of open bare asserts and of retracts,
  none taking back an assert of its own call, it does exactly when of every attribute nothing closes the newest assert,
  or the newest one still open carries the same value (`RunMirrorsIff`). The cache holds the newest value either way.
  It fails after an explicit retract (`RetractCallAgreesIff`), and without one: the same open assert made twice stays in
  the cache and leaves `entity`, because its companion closes both (`RepeatedAssertIsLost`).
- Invalidation is by transaction: superseding one datom marks its neighbours, and a key the call does not assert is left
  without a prior to find exactly when every assert live under it is in such a transaction (`NeighbourIsForgottenIff`). Its next assert gets no companion, and a retract of that assert brings
  the old value back (`UnseenPriorStaysOpen`); a retract empties a key exactly when it closes every assert of the key
  still open (`RetractEmptiesIff`).
- A companion retract is meant to hold the time its prior was in effect. Over a rising run of open bare asserts the
  companions of a key never overlap (`CompanionsNeverOverlap`), and those of calls that each write one key leave no gap
  (`OneKeyCallsTile`). In general there is a gap exactly after an assert that was marked before the next one of its
  key superseded it (`CompanionsTileIff`); three calls on two keys show one (`NeighbourLeavesAGap`).
- A branch at t is said to start from the log as it was at t. The marks later calls set are in its seed, so it has the
  outcome and draft of a branch taken at t exactly when, if that one is accepted, the marks reach no prior its assertions
  find in the snapshot, and, if it refuses an assertion, that one is still the first refused
  (`BranchIsStableIff`). An ordinary overwrite in between can open a branch that was refused (`LaterCallOpensTheBranch`).
- With per-item checkpoints `fold` is said to advance its checkpoint on every success; it does exactly when the
  last success emitted facts (`PerItemCheckpoint`, `EmptyItemLosesItsAccumulator`).
- Interleaved writers can leave two live asserts for one key: two that begin before either appends do exactly when their
  calls assert a key in common (`TwoWritersKeepOneLiveIff`), and in general a writer does exactly when its marks miss
  what is live under its keys at its append (`FinishKeepsOneLiveIff`, `WritersKeepOneLiveIff`). However their steps are
  interleaved, once all are idle one live assert a key is left exactly when of any two open asserts of one key a call
  supersedes a datom of the transaction of at least one (`QuietOneLiveIff`).
- A no-op replay is said to be byte-identical. It restamps the steps it executes again with their positions, so
  the content digest is reproduced exactly when the recording had numbered them so (`NoOpReproduces`). Interventions on
  `:state` and `:llm-out` reach no later step and no outcome, whatever their values (`InertReproduces`). The
  comments speak of one draw per domain; the tool stream is not advanced (`ToolDrawsFallBehind`), and for agents that
  draw a fixed number of times a step the streams stay aligned past a skipped step exactly for one llm, one env and
  no tool draw (`StreamsAlignIff`).
- `replay` accepts counterfactuals but leaves their cache empty, so replaying one hardly ever succeeds
  (`CounterfactualsHardlyReplay`).
- Under "skip", `fold_into` is said to raise on a broken reducer contract; it skips it like any failure
  (`SucceedsIff`). The score datoms it queues carry accumulators, not scores (`AuditsInOrder`).
- SELECT has no guard against a plan that is its own child: one SubstituteLeaf that changes nothing makes
  the search hang (`SelfEdgeHangs`); SELECT never ends exactly when its walk comes back to a node before it meets a
  leaf (`NeverEndsIff`). A search hangs only where accepted proposals lead from the initial plan round a cycle
  (`HangsOnACycle`). The expander cache is never read (`AskedOnce`), and the search gives up
  on failed evaluations only over the very first one (`GivesUpOnTheFirst`).
- Both plan walkers are documented as pre-order. The splicing one takes the first node in pre-order that has the step
  as a direct child, which is the first occurrence exactly when no sibling before that child has the step below it
  (`SplicesAt`, `SpliceIsPreOrderIff`, `SpliceIsNotPreOrder`). So a delete undoes an insert exactly when no earlier node
  has the inserted step as a direct child and the children from the first equal one to it are all equal
  (`InsertingIsUndoneIff`).

## Model

| member | source | states |
|---|---|---|
| Datoms.InMemoryStore.AllocateAndAppend | src/persistence/fact/store.py:251-260 | One critical section: all datoms of a call get the next unused transaction id, placeholders in their provenance included, and go to the end of the log |
| Datoms.InMemoryStore.MarkInvalidated | src/persistence/fact/store.py:271-287 | Every unmarked assert of the transaction is stamped, and nothing else changes |
| Datoms.MarkAllAt | src/persistence/fact/store.py:271-287 | What a series of marks does to one datom: a pointer is set at most once, only on asserts of listed transactions |
| Datoms.InMemoryStore.NextTxProbe | src/persistence/fact/store.py:289-300 | One more than the largest id in the log |
| Datoms.BareStrips | src/persistence/fact/datom.py:170-178 | The stored attribute is the raw one without its leading colons, all of them and nothing else |
| Views.Entity | src/persistence/fact/db.py:933-969 | The two-pass scan computes the documented projection |
| Views.LatestIsMaximal | src/persistence/fact/db.py:951-968 | The value shown is an unclosed assert that no other unclosed assert beats by (valid_from, tx); there is none exactly when every assert is closed |
| Views.ProjectionRule | src/persistence/fact/db.py:933-969 | An attribute shows exactly when some assert for it is named by no retract of the view by value and valid_from, and then the value of that one among them with the latest valid_from, then the highest tx, then the first place |
| Views.EntityIgnoresMarks | src/persistence/fact/db.py:933-969 | Invalidation pointers never change what an entity shows |
| Views.RetractKeysAreClosings | src/persistence/fact/db.py:951-961 | The set of retract keys the scan collects holds a datom's key exactly when some retract closes it |
| Views.AsOfValid | src/persistence/fact/db.py:480-492 | The valid-time scan computes the slice |
| Views.AsOfValidMembers | src/persistence/fact/db.py:480-492 | A datom is in the valid-time slice exactly when it is an assert of the log with valid_from no later than the time and, where it has a valid_to, valid_to later than the time |
| Views.AdjacentIntervals | src/persistence/fact/db.py:480-492 | Of two asserts on [a, b) and [b, c) the slice holds exactly one at every time from a up to c, the first before b and the second from b on, and neither at any other time |
| Views.ValidTimeShows | src/persistence/fact/db.py:480-492 | An entity of the valid-time slice shows an attribute exactly when some assert for it covers the time, and the value of the latest of these by (valid_from, tx) |
| Views.SlicesInOrder | src/persistence/fact/db.py:475-541 | All three slices of two parts of a log put together are the slices of the parts in that order |
| Views.SliceMembers | src/persistence/fact/db.py:475-541 | A datom is in `as_of(t)` exactly when recorded by t, and in `since(t)` exactly when recorded later |
| Views.AsOfNested | src/persistence/fact/db.py:475-478 | A snapshot of a later snapshot is the earlier snapshot |
| Views.AsOfSincePartition | src/persistence/fact/db.py:475-541 | `as_of` and `since` split the log, each datom once |
| Transact.FindPriorAssert | src/persistence/fact/db.py:1002-1018 | The reversed scan finds the last live assert of the key |
| Transact.IndexPriors | src/persistence/fact/db.py:375-386 | The one-pass index answers every key as the reversed scan would |
| Transact.DB.Transact | src/persistence/fact/db.py:196-340 | The slow transactor leaves the log and the outcome the draft semantics with scans gives, and an untouched log when it refuses |
| Transact.DB.TransactBatch | src/persistence/fact/db.py:342-468 | The same for the indexed transactor; its loop ties the snapshot index and the in-batch index to the reversed scan |
| Intervals.CallRecordsFacts | src/persistence/fact/db.py:295-332 | Companions left out, an accepted call of either transactor appends one datom a fact, in order, each field of it as the fact, the call or the clock gives it |
| Intervals.IdsAreConsecutive | src/persistence/fact/store.py:251-260 | Over any run from an empty store the transaction ids in use are 1, 2, 3 and so on, one an accepted call with facts |
| Intervals.CompanionsMakeRoom | src/persistence/fact/db.py:250-293 | In the log any call leaves, each companion it wrote is followed at once by the assert it makes room for and closes an earlier open assert of that key, whose value and provenance it carries, from the earlier of their two valid_froms to the later |
| Intervals.PriorIsNewest | src/persistence/fact/db.py:1002-1018 | The prior is the last open unmarked assert of exactly that key; there is none exactly when no prior is found |
| Intervals.OneFactRefusedIff | src/persistence/fact/db.py:239-268 | A call of one fact is refused, and leaves the log alone, exactly when it is an unforced assert whose valid_from, or else the clock, is earlier than the valid_from of its prior |
| Transact.BatchRefinesTransact | src/persistence/fact/db.py:342-360 | Where the call meets the condition both transactors build the same datoms and invalidations in order, or refuse the same fact and change nothing |
| Transact.SameDraftIff | src/persistence/fact/db.py:402-434 | For an accepted call both transactors build the very same draft, list of invalidations included, if and only if no assert has its in-call prior hidden from one lookup, a condition on the fact list alone |
| Refinement.BatchRefinesIff | src/persistence/fact/db.py:342-468 | For every call, refused and forced ones included, the two transactors have the same outcome and leave the same log if and only if their lookups refuse the same fact first or, refusing none, call for the same companions and supersede datoms of the same transactions |
| Refinement.FreshCallsAgreeIff | src/persistence/fact/db.py:402-457 | For accepted calls that repeat no open assert of the log, that is the condition that no assert has its in-call prior hidden from one lookup |
| Refinement.RepeatsHideTheSplit | src/persistence/fact/db.py:402-457 | After the same open assert was made before, a call can hide a prior from one lookup and leave the same log all the same |
| Refinement.InvalidationsAre | src/persistence/fact/db.py:293-338 | A call marks exactly the transactions of the priors its asserts find |
| Transact.OpenBareCallsAgree | src/persistence/fact/db.py:402-457 | Open asserts under bare attributes always meet that condition |
| Transact.ClosedIntervalSplitsThem | src/persistence/fact/db.py:402-457 | An open, a closed-interval and an open assert of one key: the two transactors leave different logs |
| Transact.ColonSplitsThem | src/persistence/fact/datom.py:144-180 | On every log, two open asserts under one colon-prefixed attribute in one accepted call leave two datoms by one transactor and three by the other |
| Transact.DB.Branch | src/persistence/fact/db.py:543-582 | A branch is a fresh store holding the snapshot followed by the transacted assertions; the parent store is not touched |
| Branches.BranchIsStableIff | src/persistence/fact/db.py:543-582 | After any later calls on the parent, a branch at t has the outcome and draft of one taken before them if and only if: where that one is accepted, no assertion without a prior in its own call had the last live assert of its key marked; where it is refused at an assertion, that one is refused still and none before it |
| Branches.OneLiveBranchIff | src/persistence/fact/db.py:543-582 | Where the snapshot has at most one live assert a key, that is if and only if no assertion (the refused one, if there is one) had its prior marked |
| Branches.LaterCallOpensTheBranch | src/persistence/fact/db.py:543-582 | A value recorded at t and overwritten later: a branch at t that asserts an earlier value is refused before the overwrite and accepted after it |
| Runs.SplitViewsFrom | src/persistence/fact/db.py:196-492 | However a rising stream of open asserts is cut into calls of either transactor, and whatever forward log it continues, none is refused, `entity` shows the last value of each attribute and the valid-time slice the last one in effect |
| Runs.SplitViews | src/persistence/fact/db.py:196-492 | The same from an empty store |
| Runs.SplitsAgree | src/persistence/fact/db.py:196-492 | Two ways of cutting one stream that continues a forward log give the same views |
| Tiling.CompanionsNeverOverlap | src/persistence/fact/db.py:269-293 | Over a rising run of open bare asserts, in calls of either transactor, no time is held by two companions of one key, and none outside the asserts of the key by any |
| Tiling.CompanionsTileIff | src/persistence/fact/db.py:269-338 | After such a run the companions of a key hold every time between its asserts if and only if each assert of it was superseded by the very call of the next one |
| Tiling.OneKeyCallsTile | src/persistence/fact/db.py:269-338 | If each call writes one key, every time between asserts of a key is held by exactly one companion, and no other time by any |
| Tiling.NeighbourLeavesAGap | src/persistence/fact/db.py:333-338 | Two keys in one call, then each overwritten in a call of its own: the companions of the second leave a gap |
| Runs.OverwriteShowsIff | src/persistence/fact/db.py:244-293 | Whatever the log shows and whether or not a prior is found, an accepted assert becomes what `entity` shows exactly when neither the log nor its own companion closes it and they leave no later assert of its key open |
| Runs.ForcedShowsIff | src/persistence/fact/db.py:244-293 | A forced retroactive correction shows exactly when its value is not its prior's, no retract names it and no open assert of its key is later; its prior is then closed |
| Runs.OverwriteOfWinner | src/persistence/fact/db.py:244-293 | Where the prior is what `entity` shows, the overwrite shows exactly when it is later, or as late with another value, and not retracted beforehand; a forced retroactive one leaves the old value showing |
| Runs.HistoryIsStable | src/persistence/fact/db.py:475-478 | No later run, forced corrections included, changes any entity of an earlier snapshot |
| LiveAsserts.OneLiveIff | src/persistence/fact/store.py:271-287 | From a log with at most one live assert a key, an accepted call on any attributes leaves at most one if and only if its open asserts share no stored key and each assert live under such a key is in a transaction the call supersedes a datom of |
| LiveAsserts.BareCallsOneLiveIff | src/persistence/fact/db.py:239-338 | Under bare attributes that is if and only if no two of its open asserts share a key |
| LiveAsserts.ColonCallsOneLiveIff | src/persistence/fact/db.py:1002-1018 | Under colon-prefixed attributes it is if and only if nothing is live under its stored keys and no two of its open asserts share one |
| LiveAsserts.ColonLeavesTwoLive | src/persistence/fact/db.py:1002-1018 | So one open assert under a colon-prefixed attribute on a live key leaves two live asserts |
| LiveAsserts.NeighbourIsForgottenIff | src/persistence/fact/store.py:271-287 | On any log, a key the accepted call does not assert is left without a prior to find if and only if every assert live under it is in a transaction the call supersedes a datom of |
| LiveAsserts.RunsKeepOneLive | src/persistence/fact/db.py:244-338 | Over every sequential run of such calls each key has at most one live assert |
| LiveAsserts.CompanionsKeepOrder | src/persistence/fact/db.py:262-293 | In every run, forced ones included, each companion retract has an ordered interval and names its own transaction |
| Projection.DictProjection.Apply | src/persistence/fact/projection.py:99-128 | One streamed datom updates the three dictionaries as the cell semantics says |
| Projection.Rebuild | src/persistence/fact/projection.py:149-159 | A rebuild is the log streamed from empty, whatever the cache held |
| Projection.RetractsSeen | src/persistence/fact/projection.py:98-105 | The set of retracts the cache keeps is that of the log it was streamed |
| Projection.CacheMatchesEntity | src/persistence/fact/projection.py:76-81 | On a forward log the streamed cache reads, for every entity, as the view recomputed from scratch |
| Projection.CacheMatchesRun | src/persistence/fact/projection.py:76-128 | Hence after every rising run of open asserts that continues a forward log, keys repeated inside one call included |
| Projection.CacheAgreesIff | src/persistence/fact/projection.py:76-128 | On every steady log the cache holds the newest assert of each key, and agrees with `entity` on the key exactly when nothing closes that assert or the newest one still open carries its value |
| Mirror.RunsAreSteady | src/persistence/fact/projection.py:76-128 | Every run of unforced calls of open bare asserts, at whatever valid_from, and of retracts that take back no assert of their own call leaves a steady log |
| Mirror.RunMirrorsIff | src/persistence/fact/projection.py:76-128 | After such a run the cache equals the recomputed entity if and only if that holds of every attribute |
| Mirror.RetractCallAgreesIff | src/persistence/fact/projection.py:99-113 | A retract passed to either transactor on a steady log keeps it steady and the cache unchanged, and cache and view agree on its key exactly when neither it nor the log closes the newest assert, or the newest one still open equals it |
| Mirror.RepeatedAssertIsLost | src/persistence/fact/db.py:244-293 | The same open bare assert made by two calls stays in the cache and is absent from `entity` |
| Projection.RetractShows | src/persistence/fact/db.py:951-969 | On any log a retract takes the asserts it closes from what `entity` can show of the key and only those; the newest of the others shows |
| Projection.RetractEmptiesIff | src/persistence/fact/db.py:951-969 | On any log a retract empties a key exactly when it closes every assert of the key still open |
| Projection.LaterRetractAgreesIff | src/persistence/fact/projection.py:99-113 | After any later retract on a steady log the cache keeps the newest value; when it agrees with `entity` |
| Projection.ExplicitRetractAgreesIff | src/persistence/fact/projection.py:99-113 | On a forward log: exactly when the retract does not close the last value or the last earlier value still open equals it |
| Projection.UnseenPriorStaysOpen | src/persistence/fact/db.py:1002-1018 | On a forward log an open assert later than an over-invalidated value gets no companion, and a retract of it shows the old value again |
| Fold.FoldDB | src/persistence/fact/db.py:725-847 | The loop with its buffer and flushes returns, raises and writes what the item-by-item semantics says |
| Fold.FoldErrorIsExact | src/persistence/fact/db.py:739-793 | On FoldError the committed facts are those of the successful items up to the last non-empty flush, the accumulator is the one there, and the count is the growth of the log |
| Fold.FoldCorrectionIsExact | src/persistence/fact/db.py:739-847 | A fold that ends in RetroactiveCorrectionError leaves the log as the batches flushed before made it; the facts waiting then are those an unforced call on that log refuses |
| Fold.FoldDoneIsExact | src/persistence/fact/db.py:795-847 | On return every successful item's facts are committed in order and the count is the growth of the log |
| Fold.CheckpointsFall | src/persistence/fact/db.py:739-847 | A checkpoint falls after every `checkpoint_every`-th success, or after each when it is none: uncommitted are exactly the facts of the successes left over since |
| Fold.BackdatedItemEndsTheFold | src/persistence/fact/db.py:739-847 | No flush is forced: with a flush a success, an item that emits an assert backdated before its prior ends the call in that error and leaves the log as it was before the item |
| Fold.PerItemCheckpoint | src/persistence/fact/db.py:727-769 | With per-item checkpoints the checkpoint has caught up exactly when the last success emitted facts |
| Fold.EmptyItemLosesItsAccumulator | src/persistence/fact/db.py:743-745 | An item without facts, then one that raises: the error carries the seed |
| Fold.SkipDropsRaisers | src/persistence/fact/db.py:795-847 | Under "skip" result and log are those of the list without the raising items, under any error mode, even when the reducer reads the db; an error's index is counted among the items kept |
| Fold.CheckpointSizesAgreeFrom | src/persistence/fact/db.py:585-847 | For a dated rising stream that continues any forward log every checkpoint size gives the same accumulator and the same views |
| Fold.CheckpointSizesAgree | src/persistence/fact/db.py:585-847 | The same from an empty store |
| Writers.EveryInterleaving | src/persistence/fact/store.py:251-287 | Under every interleaving of snapshot, append and mark steps the log stays sorted, old datoms change only in a pointer set once, and each pointer names a later transaction that holds the companion |
| Writers.RunsAreContiguous | src/persistence/fact/store.py:251-260 | The datoms of one transaction are one contiguous run |
| Writers.AppendsAreFresh | src/persistence/fact/store.py:251-260 | Each append takes an id larger than any before it |
| Writers.SequentialLogsAreOk | src/persistence/fact/db.py:232-340 | The invariant of interleaved runs holds of the empty store and of every log a sequential run leaves |
| Writers.AloneIsSequential | src/persistence/fact/db.py:232-340 | A writer left alone leaves what the sequential transactor leaves |
| Writers.FinishKeepsOneLiveIff | src/persistence/fact/db.py:232-340 | A writer that appends after its snapshot has aged, and then marks, keeps one live assert a key if and only if its open asserts share no key and each assert live under one of them at the append is in a transaction its call supersedes a datom of in the snapshot |
| Writers.WritersKeepOneLiveIff | src/persistence/fact/store.py:251-287 | Over whole runs of writers whose marks follow their appends, one live assert a key holds throughout if and only if each draft, at its append, asserts no key twice and marks what is live under its keys |
| Writers.TwoWritersKeepOneLiveIff | src/persistence/fact/db.py:232-340 | From a log with at most one live assert a key, two accepted bare calls without repeated keys begun before either appends leave at most one if and only if they assert no key in common |
| Writers.InterleavedWritersLeaveTwoLive | src/persistence/fact/db.py:232-340 | So two writers that each assert one same key leave two |
| Quiescence.LiveWhenIdle | src/persistence/fact/store.py:271-287 | Under every interleaving, once all writers are idle, an open assert is live exactly when no call of the run supersedes a datom of its transaction |
| Quiescence.QuietOneLiveIff | src/persistence/fact/store.py:271-287 | So one live assert a key is left if and only if of any two open asserts of one key a call supersedes a datom of the transaction of at least one |
| Effects.EffectHandler.Call | src/persistence/replay/effect_handler.py:86-195 | One call replies and updates cache and log as the shared dispatch core says, in both modes |
| Effects.RunGrows | src/persistence/replay/effect_handler.py:103-161 | Over any sequence of requests cache entries are never overwritten and the log only grows |
| Effects.RunIsConsistent | src/persistence/replay/effect_handler.py:154-161 | Once answered, an equal request always gets the same answer |
| Effects.RunLogsOnce | src/persistence/replay/effect_handler.py:149-161 | Each newly executed key is logged exactly once with the result cached for it, and none of them is an external side effect in replay mode |
| Effects.ReplayNeverReexecutes | src/persistence/replay/effect_handler.py:105-115 | An uncached external side effect is refused in replay mode whatever its thunk would do |
| Effects.MissesInReplay | src/persistence/replay/effect_handler.py:106-151 | A request the cache does not hold is refused exactly for an external op, a prompt mismatch exactly for an llm call the log holds with the same other arguments, a miss exactly when nothing is cached; else its thunk is run, remembered and logged |
| Effects.MissesInRecord | src/persistence/replay/effect_handler.py:153-161 | In record mode an uncached request runs its thunk; a cached one gets the cached result in either mode |
| Effects.RecordingReplays | src/persistence/replay/effect_handler.py:86-161 | A recorded sequence replays identically in any world and changes nothing |
| Engine.Record | src/persistence/replay/engine.py:69-104 | The loop records what the step-by-step semantics gives, or passes on the first exception |
| Engine.Replay | src/persistence/replay/engine.py:107-232 | The checks in order, the prefix copy, the interventions, the re-execution and the extrapolation in record mode |
| Engine.ApplyIntervention | src/persistence/replay/engine.py:235-266 | An unknown field is refused before any draw; otherwise one field is replaced and both streams advance by one |
| Engine.BranchPoint | src/persistence/replay/engine.py:158-159 | The branch point is a step intervened on and no later than any other |
| Engine.ByStep | src/persistence/replay/engine.py:158-159 | The index holds exactly the steps intervened on, each with an intervention on it |
| Engine.LastWins | src/persistence/replay/engine.py:158-159 | Of several interventions on one step only the last takes effect |
| Counterfactuals.InertReproduces | src/persistence/replay/engine.py:189-232 | For an agent that meets the draw contract, in any world a replay that leaves actions and observations as recorded succeeds and gives back the outcome, whatever it writes to `:state` and `:llm-out`; its facts are the recorded ones but for the fields written and the restamped numbers, and the digest is reproduced if and only if neither differs |
| Counterfactuals.NoOpReproduces | src/persistence/replay/engine.py:1-17 | For such an agent, in any world a no-op replay of a recording succeeds and gives back its outcome and facts up to the restamped numbers; the digest is reproduced if and only if those were positions already |
| Counterfactuals.DrawsStayAligned | src/persistence/replay/engine.py:189-223 | For such an agent, whatever the interventions, every counterfactual step has the draws the recording took at that index, and each fact is a copy, an intervened copy or a fresh step on the recorded observation |
| Counterfactuals.OnlyTheMarginDecides | src/persistence/replay/dpo.py:19-64 | For any agent, the prefixes match at the branch point, actions diverge not before it (and at it when the action was replaced), so a pair is refused on the margin alone |
| Outcomes.RecordedOutcome | src/persistence/replay/engine.py:91-100 | The outcome of a recording holds exactly `pnl` and `balance` of the state its actions lead to on its observations, 0.0 where that has none; the pnl a preference pair compares is that state's |
| Outcomes.ReplayedOutcome | src/persistence/replay/engine.py:186-230 | The same for a replay, from the first recorded state along its own actions, on the observations of its facts and then the extra ones |
| Outcomes.DrawsByPosition | src/persistence/replay/engine.py:47-66 | For an agent that meets the draw contract, step k of a recording and of any replay of it holds the k-th numbers of the llm and env streams, each seeded under its name or with 0 |
| Outcomes.WindowReexecutes | src/persistence/replay/engine.py:199-207 | From the branch point on a step not intervened on is the agent's own on the recorded observation, in replay mode over all that was recorded |
| Outcomes.PastIsSimulated | src/persistence/replay/engine.py:209-225 | Past the window every step is the agent's own on the next extra observation, in record mode, numbered on from the window |
| Outcomes.RecordingIs | src/persistence/replay/engine.py:82-104 | A recording has no ancestry, the job's description, and the digest of its own content |
| Outcomes.CounterfactualIs | src/persistence/replay/engine.py:158-182 | A counterfactual names its parent, all interventions and the least step they touch, keeps the parent's description and has no cache |
| Outcomes.ReplayRefuses | src/persistence/replay/engine.py:124-156 | What `replay` refuses, in order; among interventions the first one out of range |
| Outcomes.InterventionWrites | src/persistence/replay/engine.py:235-266 | An intervention writes the one field it names, in either spelling, and the draws, and nothing else; any other name is refused |
| Outcomes.PairPrefersTheWinner | src/persistence/replay/dpo.py:35-64 | There is a pair exactly when both runs reach the branch point, agree before it and differ by more than the threshold; chosen is the output of the run with the higher pnl (of equals the factual), rejected the other's, the prompt the factual's and the margin their difference |
| Counterfactuals.CounterfactualsHardlyReplay | src/persistence/replay/engine.py:161-185 | Replaying a counterfactual of an agent that always calls an effect succeeds exactly when every step from the branch point on is intervened on |
| Recordings.ExecReplays | src/persistence/replay/effect_handler.py:103-161 | A recorded agent step runs alike over a replay handler holding what was cached, in any world, and leaves it unchanged |
| Agents.ToyAgentIsAligned | tests/replay/conftest.py:21-68 | The agent the replay tests record meets the contract the theorems assume |
| Agents.ToolDrawsFallBehind | src/persistence/replay/engine.py:55-66 | An agent that also draws from the tool stream is not reproduced by a no-op replay |
| Agents.ReplayOffsets | src/persistence/replay/engine.py:189-223 | For every agent with a fixed number of draws a step, the offsets at which each step of a replay starts, as a function of the steps copied or intervened on before it |
| Agents.StreamsAlignIff | src/persistence/replay/engine.py:55-66 | For such an agent a replay starts a step at the offsets of the recording if and only if no earlier step was skipped or the agent draws exactly one llm and one env number and no tool number |
| Dpo.Divergence | src/persistence/replay/engine.py:287-291 | The first step at which the actions differ over the common length, if any |
| Plans.ReplaceAtIsLocal | src/persistence/plan/_mcts.py:122-147 | Replacing succeeds where resolving does, puts the subtree there, changes the size by the difference and can be undone |
| Plans.ActionsGrow | src/persistence/plan/_mcts.py:150-253 | An accepted AddStep or ComposeWithSkill gives a strictly larger plan, and by exactly how much every action grows it |
| PlanLaws.AddedStepStands | src/persistence/plan/_mcts.py:150-162 | An AddStep is accepted exactly for a position of an existing node and a depth of at most 32; the new child stands there, the others keep their order and nothing else changes |
| PlanLaws.ComposedSkillStands | src/persistence/plan/_mcts.py:188-224 | A ComposeWithSkill names a registered skill of depth at most 16 that nowhere contains the plan; the skill takes the place of its target, which becomes its first child, and nothing else changes |
| PlanLaws.SubstitutedLeafStands | src/persistence/plan/_mcts.py:227-253 | A SubstituteLeaf puts its leaf in the place of any existing target |
| PlanLaws.ReplaceLeavesOthers | src/persistence/plan/_mcts.py:135-147 | Every subtree off the path of a replacement stays where it was |
| PlanLaws.LongestPath | src/persistence/plan/_mcts.py:115-119 | The depth is the number of nodes on a longest path into the plan (with `PathsAreShorter`) |
| PlanLaws.PathsAreShorter | src/persistence/plan/_mcts.py:115-119 | No path into a plan has as many steps as its depth |
| PlanLaws.SubtreesAreReached | src/persistence/plan/_mcts.py:180-184 | The ids collected of a plan are those of what the paths into it lead to |
| Search.BestEdge | src/persistence/plan/_mcts.py:594-615 | The edge selected beats every earlier edge and no later edge beats it |
| Search.WinnerOutranks | src/persistence/plan/_mcts.py:785-808 | The winner has at least the visits of every root edge, at equal visits at least the mean, at equal means a hash no higher, and no edge before it ties with it |
| Search.MostVisited | src/persistence/plan/_mcts.py:888-893 | The first edge with the most visits among the others, as a stable descending sort gives it |
| Search.Mcts.PopulateChildren | src/persistence/plan/_mcts.py:642-687 | Accepted proposals become edges in order, rejected and repeated ones change nothing, new plans enter the table once |
| Search.Mcts.Backup | src/persistence/plan/_mcts.py:1060-1069 | Every node and edge of the path, and the leaf, count the score once each time the path passes them |
| Search.MctsSearch | src/persistence/plan/_mcts.py:811-1133 | The loop ends as its turn-by-turn semantics says, with the result, an expander error or a SELECT that never ends; the plan it returns is the child of a most visited root edge of the final table, with that edge's mean, or the initial plan when there is no edge or every evaluation failed |
| SearchLaws.FlowIsConserved | src/persistence/plan/_mcts.py:933-1069 | In every state between turns each node's count equals its out-edges plus the backups that ended there, and its in-edges plus (at the root) all backups, for visits and for values alike |
| SearchLaws.TurnCountsOnceOrNever | src/persistence/plan/_mcts.py:1010-1069 | A turn makes exactly one backup, of the score cached for its leaf, or fails to evaluate and changes no counter |
| SearchLaws.MeansStayBetween | src/persistence/plan/_mcts.py:355-361 | If all scores lie in an interval so does the mean of every visited node and edge |
| SearchEnds.LongWalksNeverEnd | src/persistence/plan/_mcts.py:933-940 | A SELECT that has made as many steps as the table has nodes without meeting a leaf never ends |
| SearchEnds.NeverEndsIff | src/persistence/plan/_mcts.py:933-940 | On any table SELECT never ends if and only if its walk comes back to a node before it meets a leaf, within as many steps as there are nodes |
| SearchEnds.HangsOnACycle | src/persistence/plan/_mcts.py:875-986 | A search that hangs yields accepted proposals leading from the initial plan to some plan and back to it, so without such a cycle every search ends |
| SearchEnds.GrowingSearchEnds | src/persistence/plan/_mcts.py:875-986 | When every accepted proposal raises some rank of its plan the search ends, within max_iter turns |
| SearchEnds.OnlyAddingGrows | src/persistence/plan/_mcts.py:150-224 | An expander that proposes only AddStep and ComposeWithSkill raises the number of nodes, and so meets that condition |
| SearchEnds.NoNodeTwice | src/persistence/plan/_mcts.py:933-940 | With such an expander the selected path passes no node twice |
| SearchEnds.SelfEdgeHangs | src/persistence/plan/_mcts.py:935-940 | A SubstituteLeaf that puts the root back where it was makes the second SELECT run for ever |
| SearchEnds.AskedOnce | src/persistence/plan/_mcts.py:943-987 | The expander is asked at most once a plan and its cache is never hit; the evaluator succeeds at most once a plan and every backup carries the score it gave |
| SearchEnds.GivesUpOnTheFirst | src/persistence/plan/_mcts.py:906-920 | The search gives up for failed evaluations only with one failure over one attempt |
| SearchChoices.ScoreIs | src/persistence/plan/_mcts.py:597-611 | What the selection score adds to the mean, times one more than the visits, is the constant times the prior times the root of the parent's visits |
| SearchChoices.FewerVisitsPreferred | src/persistence/plan/_mcts.py:597-611 | Of two edges of equal mean and prior the less visited one scores higher, where constant, prior and root are positive |
| SearchChoices.MeansAndPriorsPreferred | src/persistence/plan/_mcts.py:597-611 | Of two edges equally visited the higher mean scores higher at equal priors, and the higher prior at equal means where constant and root are positive |
| SearchChoices.LeafGetsFirstProposals | src/persistence/plan/_mcts.py:642-687 | A leaf gets one edge for each action that is proposed and accepted, in order, with the child and the prior of the first proposal of that action |
| SearchChoices.ExpandCases | src/persistence/plan/_mcts.py:943-986 | EXPAND leaves nodes with edges and terminal ones alone, fails with the expander, and otherwise changes one node, which becomes terminal exactly when it gets no edge |
| SearchChoices.StopsWhen | src/persistence/plan/_mcts.py:875-920 | Which of the four checks stops a turn, in plain counts |
| SearchChoices.StopsOnTheLeadIff | src/persistence/plan/_mcts.py:881-905 | The search stops on the lead of its best root edge if and only if that lead was met at the start of as many turns in a row as the window says |
| SearchChoices.FirstTurn | src/persistence/plan/_mcts.py:943-1069 | The first turn fails with the expander, or ends the search as exhausted exactly when the initial plan accepts no proposal, or evaluates the initial plan and counts its score once |
| SearchChoices.LaterTurns | src/persistence/plan/_mcts.py:988-1002 | No later turn ends a search as exhausted |
| Speculation.FoldInto.WrapperFn | src/persistence/sdk/_fold_into.py:338-384 | The adapter counts every call and captures facts, score and accumulator under its index only when the reducer kept its contract |
| Speculation.FoldInto.ChooseWrapper | src/persistence/sdk/_fold_into.py:413-473 | The list shown to `choose` and the translation of its index back to a branch |
| Speculation.FoldInto.DoFork | src/persistence/fact/_fork.py:379-582 | The branch loop, the audit intents in order, and the chosen intent only after a valid choice |
| Speculation.FoldInto.Run | src/persistence/sdk/_fold_into.py:212-595 | The whole call against the transaction it appends to |
| Speculation.SucceedsIff | src/persistence/sdk/_fold_into.py:292-473 | Exactly when a call succeeds, in terms of what the caller's two functions do |
| Speculation.ReportsTheChosenBranch | src/persistence/sdk/_fold_into.py:565-595 | The index reported is the one `choose` returned; score, accumulator and staged facts are that branch's, with any pattern of failures under "skip" |
| Speculation.AuditsInOrder | src/persistence/fact/_fork.py:513-575 | One probe, N branches, N scores and one chosen, in that order |
| Speculation.FailuresStageNothing | src/persistence/fact/_fork.py:486-575 | A failing call stages nothing, and leaves audit intents only when it was `choose` that failed |
| Speculation.WhyItFails | src/persistence/sdk/_fold_into.py:292-560 | What a call that does not succeed raises, in the order decided; a choice that picks nothing is blamed on the first branch that broke the reducer's contract, if any did |
| Speculation.BranchesStartFromTheSeed | src/persistence/fact/_fork.py:379-470 | Every item is tried on the seed, once and by its position; a failed branch keeps the seed |
| Dispatch.Runtime.Perform | src/persistence/effect/runtime.py:172-219 | The candidate loop and the continuation chain give the outcome of dispatch on the unmasked stack |
| Dispatch.Runtime.NamedPerform | src/persistence/effect/runtime.py:221-265 | Dispatch straight to the first handler of the name, over the unmasked handlers below it |
| Dispatch.Runtime.PushMask | src/persistence/effect/runtime.py:165-170 | Masks add up, and the token is what leaving the block restores |
| Dispatch.Runtime.UncoveredOps | src/persistence/effect/runtime.py:146-150 | The ops of the catalog no handler has a clause for |
| Dispatch.MasksRemove | src/persistence/effect/runtime.py:154-219 | Performing under masks is performing on the stack with the masked handlers taken out |
| Dispatch.NamesCut | src/persistence/effect/runtime.py:221-265 | Performing by name is performing on the stack cut above an unmasked target; a masked target is performed on all the same |
| Dispatch.PerformsFromTheTop | src/persistence/effect/runtime.py:190-219 | Handler by handler: an empty stack handles nothing, masked and uncovering handlers are passed over, else the outermost clause answers and its continuation performs the arguments it is called with on the stack below |
| Dispatch.NamedPerformsFromIt | src/persistence/effect/runtime.py:229-265 | The same by name, from the first handler of the name, masked or not |
| Dispatch.ForwardsWhatItPasses | src/persistence/effect/runtime.py:207-219 | Under a clause that calls its continuation once with other arguments and hands on what comes back, the stack gives the outcome and leaves the other contexts of performing those arguments on the stack below |
| Dispatch.NamedForwardsWhatItPasses | src/persistence/effect/runtime.py:257-265 | The same by name |
| Dispatch.CoveredOpsReachAClause | src/persistence/effect/runtime.py:138-150 | An unmasked stack finds a clause for a catalogued op exactly when the op is not uncovered |
| Dispatch.ReplayOnTop | src/persistence/replay/effect_handler.py:284-316 | The replay handler on top of a stack is the shared dispatch core with the stack below as its thunk |
| Dispatch.RecordedStackReplays | src/persistence/replay/effect_handler.py:220-316 | A sequence recorded through the handler over one stack replays identically over any other, whose handlers are never called |
| PlanEdits.ReplaceWalk | src/persistence/plan/_edit.py:98-132 | The recursive rebuild with its loop computes the first-match replacement |
| PlanEdits.SpliceWalk | src/persistence/plan/_edit.py:135-175 | The same for the sibling splice, direct children first |
| PlanEdits.EditStep | src/persistence/plan/_edit.py:206-248 | Outside a transaction or without a match nothing is queued; else one audit intent and the new tree |
| PlanEdits.SpliceStep | src/persistence/plan/_edit.py:251-400 | The same for insert after, insert before and delete |
| PlanEdits.SplicedSiblings | src/persistence/plan/_edit.py:280-400 | The new step stands right after or right before the matched one, a deleted one is gone, and all other siblings keep their order |
| PlanEdits.ReplacesTheFirst | src/persistence/plan/_edit.py:98-132 | What is replaced is the occurrence no other occurrence precedes in pre-order, and nothing else |
| PlanEdits.SpliceFinds | src/persistence/plan/_edit.py:135-175 | A splice finds its step exactly when it occurs below the root |
| PlanEdits.InsertingIsUndoneIff | src/persistence/plan/_edit.py:280-400 | Inserting any step and then deleting it gives back the plan if and only if no node before the one it was inserted under has it as a direct child and the children from the first that equals it to the inserted one all do |
| PlanEdits.InsertingIsUndone | src/persistence/plan/_edit.py:280-400 | So inserting a step that does not occur is undone |
| PlanEdits.ReplacingIsUndoneIff | src/persistence/plan/_edit.py:206-248 | Replacing a step and then replacing it back gives back the plan if and only if it was replaced by itself or no occurrence of the new step comes before it in pre-order |
| PlanEdits.ReplacingIsUndone | src/persistence/plan/_edit.py:206-248 | So replacing by a subtree that does not occur is undone |
| PlanEdits.SplicesAt | src/persistence/plan/_edit.py:135-175 | What is spliced are the children of the first node in pre-order that has the step as a direct child, at the first child that equals it, and nothing else |
| PlanEdits.SpliceIsPreOrderIff | src/persistence/plan/_edit.py:140-157 | The occurrence spliced is the first in pre-order if and only if no sibling before it has the step in its subtree |
| PlanEdits.SpliceIsNotPreOrder | src/persistence/plan/_edit.py:140-157 | Of two equal steps the splice takes the second in pre-order, and a delete can remove another occurrence than the one inserted |
| TrainingSets.Canonicalize | src/persistence/plan/_execute.py:273-345 | The first offending example is reported with its index; else the sorted texts joined by newlines |
| TrainingSets.SamePayloadIffSameExamples | src/persistence/plan/_execute.py:234-258 | Two valid training sets have the same payload exactly when they are equal as multisets |
| TrainingSets.PayloadHolds | src/persistence/plan/_execute.py:337-345 | The payload is the texts of the examples, each as often as it occurs, joined by newlines in ascending order: a prefix first, else the lower character where two texts first differ |
| TrainingSets.FaultsInOrder | src/persistence/plan/_execute.py:275-335 | Which examples are refused and for which of the four faults |

## Left out

- Hashing, JSON text and uuids: a digest or content id stands for the value it is taken of.
- Float rounding and the square root: scores are reals and the square root is an argument.
- Datetimes: integers; naive datetimes, ISO parsing and the checks for missing dict keys or wrong Python types of arguments are not modelled.
- Documents map names to numbers: only `pnl` and `balance` are ever read from them.
- Aliasing and mutation of shared dicts (`deepcopy` is the identity on values), and handler instances that are listed twice apart from sharing their context.
- The contents of provenance dicts beyond the prompt hash and the superseding transaction.
- Facts that are not dicts, unhashable keys, and reducers of `fold` that write to the database.
- Agents that catch exceptions raised by the effect handler, and action functions that raise.
- Engine.Replay: an agent step that makes more moves than the setup allows counts as one that never returns; any step that returns does so within some bound.
- Search.MctsSearch: nodes and edges of the search are values in one table, updated by position, where the source holds references to them; plan ids are unique in the table, so no two references differ. The provenance datoms, the sorted tree dump, the wall clock and malformed configurations are not modelled.
- Search.Turn: SELECT is cut off after as many steps as the table has nodes; `LongWalksNeverEnd` shows that this cuts off only walks that never end.
- Speculation.FoldInto.DoFork: `fork_impl` is modelled as `fold_into` drives it, with its two closures as methods of one object; a `choose` callback that changes the list it is given is not modelled.
- Dispatch.Runtime.Perform: clauses that perform further effects inside themselves, and context variables of concurrent tasks, are not modelled.
- Fold.CheckpointSizesAgreeFrom: a reducer that reads the log or raises can tell checkpoint sizes apart.
- Tiling.CompanionsTileIff: said of rising runs of open asserts under bare attributes from an empty store; forced corrections and closed intervals write companions that overlap others.
- Mirror.RunMirrorsIff: forced corrections, closed intervals and colon-prefixed attributes can leave logs that are not steady, of which nothing is said.
- SQLite and Postgres stores, `transact_serializable`, `history`, `causal_history`, `rebuild_view` and projection forks.
- The `dosync` engine: a transaction is the two lists that `tx.effect` and `tx.add_facts` append to.
- KL divergence and the individual treatment effects of `compare`, the EDN wire forms, EDN text, the server, the command line, spec combinators, policies and promotion gates.
