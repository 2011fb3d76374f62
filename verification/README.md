# A verified model of the block-processing core

This project models, in Dafny, the parts of a C++ Ethereum client that decide which blocks and balances exist, and
proves what they promise. Each component comes as a specification on plain values, theorems about all inputs, all
runs or all reachable states of that specification, and, where the program works in place, classes and loops that
are proved to compute it.

| component | files |
|---|---|
| block queue: staging, verifier threads, bad blocks | `Lines.dfy`, `QueueSpec.dfy`, `QueueSafety.dfy`, `QueueBlame.dfy`, `QueueRuns.dfy`, `QueueFates.dfy`, `BlockQueue.dfy` |
| block chain: tree, routes, fork choice, number and bloom indexes, lists of children | `BlockTree.dfy`, `BloomIndex.dfy`, `ChainImport.dfy`, `ChainRuns.dfy`, `ChildLists.dfy`, `CacheRuns.dfy`, `CacheExamples.dfy`, `BlockChain.dfy` |
| execution: accounts, frames, transactions, cache over trie | `Accounts.dfy`, `Execution.dfy`, `ExecutionSafety.dfy`, `AccountState.dfy`, `Executive.dfy` |
| uncles, rewards, sealing | `Uncles.dfy`, `Rewards.dfy`, `PendingBlock.dfy` |
| synchronisation: run-compressed maps, downloads | `RunMap.dfy`, `SyncSpec.dfy`, `SyncSafety.dfy`, `SyncRuns.dfy`, `SyncChecks.dfy`, `SyncExamples.dfy`, `ChainSync.dfy` |
| gas estimation | `GasEstimate.dfy` |
| ICAP addresses | `Icap.dfy` |
| shared | `Options.dfy` |

`dafny verify dfyconfig.toml` checks everything.

## How the model is set up

- **Concurrency.** Each lock-protected section of the block queue is one atomic step; a run is any interleaving of
  steps. A slot of the verifying list is `Pending` or `Done`.
- **Hashes** are abstract: a hash determines its header. `verifies` is an oracle for the out-of-order checks on a
  block, and `sane` says that a block and all its ancestors verify; the chain is assumed to hold only sane blocks,
  and nothing is assumed about how the set of blocks it knows changes. doneDrain reports only blocks of the last
  drain, as `BlockChain::sync` does.
- **Words.** Balances and nonces wrap at 2^256 and chunk keys and loop bounds at 2^32 where the program's do. The
  money supply and total difficulties are assumed to stay below 2^256, block numbers below 2^32.
- **The virtual machine** is an arbitrary finite tree of effects: spend, store, log, call, create, stop, suicide,
  throw, with any costs. It checks the balance and the depth before a nested frame, as the interpreter does.
- **Assertions.** A failed assertion of the program is an outcome of the model, after which nothing happens.
- **Environment.** Clocks, results of verification and of imports into the queue, peers, the set of expired peers
  and gas-dependent success are parameters.
- `hide` statements keep definitions out of proofs that do not need them.

## What the proofs found

- treeRoute's examples in `BlockChain.h:261-272` do not all hold: where `to` is the ancestor itself and is included,
  the index is one too far, and without the ancestor it is not in the route. The model follows the code.
- A direct ICAP address need not have a zero first byte, as `ICAP.h` asks: every 160-bit address survives.
- Before a common header is known, headers are cached without being checked against each other
  (`SyncExamples.UncheckedBatch`), nor against the last imported block (`UncheckedStart`). `SyncSpec.HeaderLinkedIff`
  says exactly when the cache stays linked, and `SyncChecks.NextChecks` when it continues the chain.
- While a common header is looked for, `first - 1` is computed without a sign. If header 0 is held, a header that is
  already held may be asked for; `SyncSpec.AskedHeldIff` says exactly when.
- A header request asks for as many consecutive numbers as were put on the peer's list. If one of these is on its way
  already, a number further up is listed and marked but not asked for (`SyncExamples.ListWithGap`);
  `SyncSpec.ListedNotAskedIff` and, from the state before, `ChainSyncObject.GapSkipsIff` say exactly when.
- A new block that arrives on its own drops a run of headers and a run of bodies that need not match. A body left
  without its header fails an assertion at once or later (`SyncExamples.StrandedBodyFails`, `StrandedBodyFailsLater`).
- Dropping headers erases the id of the header that arrived instead of theirs; a stale id can lead a body to a number
  that has one, which fails an assertion (`SyncExamples.StaleIdFails`). `SyncSafety` says exactly when each assertion
  fails, and `SyncRuns.NoFailureInEveryRun` when none does.
- Three of the checks that synchronisation makes of its own state can fail: that peers have lists exactly if numbers are
  marked (`SyncExamples.OwnCheckFails`, `AnswerFails`), that no held header is too old (`OldHeaderFails`,
  `SearchHeaderFails`), and that the common block is not the genesis block (`GenesisIsCommon`).
  `SyncChecks.OwnChecksInEveryRun` says exactly when, from the state before each step.
- A stored block above the head can be imported again. It is then listed twice among its parent's children, may be
  picked twice as an uncle, and the block that cites it is refused (`CacheExamples.PickedTwice`);
  `CacheRuns.ListedOnceInEveryRunIff` and `Uncles.PicksPassIff` say exactly when. Its own children are erased from the
  database and lost when the memo drops its details, so that an assertion on an ancestor's list fails
  (`CacheExamples.LostChild`, `CacheRuns.FullInEveryRunIff`).
- The memo in front of the number index is cleared up to the old head's number only. A number looked up while a shorter
  chain is canonical can lead to the wrong block later (`CacheExamples.StaleNumber`, `CacheRuns.NumbersInEveryRunIff`).
- If the intrinsic gas is above the cap, gas estimation answers 0, because the execution throws.
- A bloom query looks past its upper bound, and for the last 255 block numbers of 32 bits at nothing above 255.
- Check digits 00, 01 and 99 are refused even where they satisfy the MOD 97-10 congruence (`Icap.CongruentTexts`).

## Model

| member | source | states |
|---|---|---|
| QueueRuns.LineInEveryRun | libelementrem/libelementrem/BlockQueue.cpp:99-193 | in every interleaving of imports, verifier threads, drains, ticks and noteReady calls, the ready set is exactly the hashes of verified ++ verifying ++ unverified, without duplicates, and the parent of each block there is earlier in that sequence, drained, seen in the chain, or known bad |
| QueueRuns.DrainedInEveryRun | libelementrem/libelementrem/BlockQueue.cpp:449-480 | in every interleaving what was drained, followed by the line, is a subsequence of the order in which blocks became ready; each drained block follows its parent unless the chain had the parent, and all its ancestors verify |
| QueueFates.ReadyIsAccountedInEveryRun | libelementrem/libelementrem/BlockQueue.cpp:99-521 | in every interleaving each block that ever became ready was drained, is still queued, or is known bad: none is lost |
| QueueFates.KnownBadInEveryRun | libelementrem/libelementrem/BlockQueue.cpp:124-381 | in every interleaving a known-bad hash failed verification, was reported bad by doneDrain, or has a known-bad parent |
| QueueRuns.VerifiedIsCleanInEveryRun | libelementrem/libelementrem/BlockQueue.cpp:124-193 | in every interleaving no verified block is known bad or has a known-bad parent, although a failing verifier does not call updateBad |
| QueueRuns.CountersInEveryRun | libelementrem/libelementrem/BlockQueue.cpp:237-290 | in every interleaving the unknown set, count and size are exact, no waiting block has a ready, draining or known-bad parent, and known count, known size and difficulty are never below the true totals, so that no subtraction underflows |
| QueueRuns.OwnCheckPassesInEveryRun | libelementrem/libelementrem/BlockQueue.cpp:482-492 | the queue's run-time invariant, which compares sizes only, never fails |
| QueueRuns.StepKeeps | libelementrem/libelementrem/BlockQueue.cpp:99-521 | each atomic step, whatever the other threads did before, keeps the whole invariant: order, set equality, cleanness, tracked jobs, totals |
| QueueRuns.RunKeeps | libelementrem/libelementrem/BlockQueue.cpp:99-521 | the invariant holds after every run of steps |
| QueueRuns.JobBadKeeps | libelementrem/libelementrem/BlockQueue.cpp:124-142 | a verifier that found its block bad may find its entry already removed; either way the invariant is kept |
| QueueRuns.JobGoodKeeps | libelementrem/libelementrem/BlockQueue.cpp:144-178 | a verifier that finishes out of order fills its own slot; if it is first in line the finished prefix moves on, dropping children of bad blocks |
| QueueRuns.ArriveKeeps | libelementrem/libelementrem/BlockQueue.cpp:195-291 | import keeps the invariant with every outcome |
| QueueRuns.NoteReadyKeeps | libelementrem/libelementrem/BlockQueue.cpp:494-521 | promoting waiting descendants breadth first ends with no waiting block whose parent is ready; every waiting block still waits or was promoted, and none is duplicated |
| QueueRuns.NoteReadyOrder | libelementrem/libelementrem/BlockQueue.cpp:494-521 | each promoted block comes after its parent |
| QueueRuns.TickKeeps | libelementrem/libelementrem/BlockQueue.cpp:383-422 | taking the due blocks out of the future pool keeps the counters exact |
| QueueRuns.TickTakesDue | libelementrem/libelementrem/BlockQueue.cpp:393-409 | on a clock of 32 bits exactly the blocks whose time has come leave the pool |
| QueueRuns.DrainStepKeeps | libelementrem/libelementrem/BlockQueue.cpp:449-480 | handing out a batch keeps order, sets and totals |
| QueueRuns.DoneDrainKeeps | libelementrem/libelementrem/BlockQueue.cpp:366-381 | finishing a drain with bad blocks of that drain keeps the invariant |
| QueueSafety.UpdateBadKeeps | libelementrem/libelementrem/BlockQueue.cpp:293-344 | updateBad ends; afterwards the line is the old one without the known-bad blocks, in order, and no queued or waiting block has a known-bad parent |
| QueueSafety.SweepAllKeeps | libelementrem/libelementrem/BlockQueue.cpp:299-343 | the sweep over the three lists reaches its fixpoint: no queued block with a known-bad parent is left |
| QueueSafety.CollectKeeps | libelementrem/libelementrem/BlockQueue.cpp:346-364 | collectUnknownBad ends with no waiting block whose parent is known bad and keeps the unknown counters exact |
| QueueBlame.CollectExactly | libelementrem/libelementrem/BlockQueue.cpp:346-364 | of the waiting blocks, collectUnknownBad condemns exactly the descendants, by parent links among them, of the known-bad ones; all others still wait |
| QueueBlame.UpdateBadExactly | libelementrem/libelementrem/BlockQueue.cpp:293-344 | of the queued and waiting blocks, updateBad condemns exactly the descendants of the known-bad ones |
| BlockQueueObject.BlockQueue.ImportBlock | libelementrem/libelementrem/BlockQueue.cpp:195-291 | the object's import returns the outcome and reaches the state of the specification, branch by branch |
| BlockQueueObject.BlockQueue.UpdateBadLocked | libelementrem/libelementrem/BlockQueue.cpp:293-344 | the three swapping loops compute the specified sweep |
| BlockQueueObject.BlockQueue.CollectUnknownBadLocked | libelementrem/libelementrem/BlockQueue.cpp:346-364 | the worklist loop computes the specified condemnation |
| BlockQueueObject.BlockQueue.NoteReadyLocked | libelementrem/libelementrem/BlockQueue.cpp:494-521 | the worklist loop computes the specified promotion |
| BlockQueueObject.BlockQueue.DrainVerifiedLocked | libelementrem/libelementrem/BlockQueue.cpp:180-193 | the loop moves exactly the finished prefix |
| BlockQueueObject.BlockQueue.TakeWork | libelementrem/libelementrem/BlockQueue.cpp:103-122 | a verifier takes the first unverified block and leaves a pending slot |
| BlockQueueObject.BlockQueue.WorkIsBad | libelementrem/libelementrem/BlockQueue.cpp:124-142 | the failing branch: hash condemned, slot removed wherever it is, finished prefix drained |
| BlockQueueObject.BlockQueue.WorkIsGood | libelementrem/libelementrem/BlockQueue.cpp:144-178 | the succeeding branch, in place or first in line |
| BlockQueueObject.BlockQueue.TickLocked | libelementrem/libelementrem/BlockQueue.cpp:383-416 | the due blocks leave the future pool in order of their truncated timestamps; the clock is truncated like them, except in the first comparison |
| BlockQueueObject.BlockQueue.DrainBlocks | libelementrem/libelementrem/BlockQueue.cpp:449-480 | at most max verified blocks are handed out, none while a drain is in progress |
| BlockQueueObject.BlockQueue.DrainDone | libelementrem/libelementrem/BlockQueue.cpp:366-381 | the drain is over and the blocks reported bad are condemned |
| BlockTree.MeetingIsLowest | libelementrem/libelementrem/BlockChain.cpp:1119-1133 | where two chains meet is their lowest common ancestor: an ancestor of both, and no later block is |
| BlockTree.TreeRoute | libelementrem/libelementrem/BlockChain.cpp:1089-1138 | for all blocks of a well-numbered tree and all flags the route is the blocks of from's chain above the meeting point downwards, the ancestor iff asked for, and those of to's chain upwards; null hashes give the empty route; all loops end |
| BlockTree.Descend | libelementrem/libelementrem/BlockChain.cpp:1099-1116 | following parents to a given number ends at the ancestor with that number and collects the blocks passed |
| BlockTree.DescendTogether | libelementrem/libelementrem/BlockChain.cpp:1117-1133 | following parents on both sides ends at the lowest block where the chains meet |
| BlockTree.IndexLocatesAncestor | libelementrem/libelementrem/BlockChain.cpp:1134-1137 | the index is the from-side length without the ancestor; with it, it points at the ancestor exactly if the to-side is present and, when both are, to is not the ancestor |
| BlockTree.IndexExample | libelementrem/libelementrem/BlockChain.h:261-272 | the header's example with to as the ancestor: the code returns index 2, not 1 |
| BlockTree.AboveMeetingApart | libelementrem/libelementrem/BlockChain.cpp:1117-1132 | no block above the meeting point is on both chains |
| BlockTree.RouteDistinct | libelementrem/libelementrem/BlockChain.cpp:1089-1138 | a route has each of its blocks once |
| ChainImport.ImportKeeps | libelementrem/libelementrem/BlockChain.cpp:646-962 | every import of a must-be-new block, accepted or refused, keeps: total difficulties add up, the head is best, the number index is the head's chain, the blooms of the head's chain are covered |
| ChainImport.ReportIsExact | libelementrem/libelementrem/BlockChain.cpp:963-975 | cutting the reported dead blocks from the old canonical chain and appending the fresh ones gives exactly the new canonical chain; no dead block is on it |
| ChainImport.ReimportSame | libelementrem/libelementrem/BlockChain.cpp:667-671 | a stored block above the head counts as new; importing it again changes nothing and never makes it the head |
| ChainImport.GrownKeeps | libelementrem/libelementrem/BlockChain.cpp:720-770 | storing a block changes no chain, and it is the best block or the head still is |
| ChainImport.AdoptNumbers | libelementrem/libelementrem/BlockChain.cpp:819-868 | after a switch of heads every number 1..head is indexed to the new head's ancestor with that number, whatever the lengths of the two branches |
| ChainImport.AdoptBlooms | libelementrem/libelementrem/BlockChain.cpp:803-868 | after a switch of heads every block of the new chain is covered at both bloom levels, in the memo and in the database |
| ChainRuns.StepKeeps | libelementrem/libelementrem/BlockChain.cpp:646-976 | imports, memoising reads and garbage collection each keep the invariant |
| ChainRuns.ReachedInv | libelementrem/libelementrem/BlockChain.cpp:646-976 | the invariant holds after every run from the genesis block |
| ChainRuns.DifficultyInEveryRun | libelementrem/libelementrem/BlockChain.cpp:737-766 | after every run each stored total difficulty is the sum of the difficulties from the genesis block up |
| ChainRuns.HeadInEveryRun | libelementrem/libelementrem/BlockChain.cpp:792-880 | after every run no stored block beats the head in (total difficulty, gas used) with tie-breaking, or in difficulty without, and the number index at 1..head is the head's ancestors |
| ChainRuns.QueryInEveryRun | libelementrem/libelementrem/BlockChain.cpp:1266-1318 | after every run both bloom levels lead a query to every canonical block whose bloom contains it, and the query looks at every block in its range unless that ends in the last 255 numbers of 32 bits |
| BlockChainObject.BlockChain.Import | libelementrem/libelementrem/BlockChain.cpp:646-976 | the in-place import has the specified verdict, dead and fresh blocks, although it routes to the parent and tacks the block on; the new state is the specified one of the chain, the lists of children and the memo of numbers |
| BlockChainObject.BlockChain.Judged | libelementrem/libelementrem/BlockChain.cpp:660-702 | the checks before a block is stored give the specified verdict, and read the details of the block, if it is stored, and of its parent into the memo |
| BlockChainObject.BlockChain.StoreBlock | libelementrem/libelementrem/BlockChain.cpp:765-974 | storing an accepted block, and making it the head if it is better, gives the specified chain, report and memo of numbers |
| BlockChainObject.BlockChain.RecordChild | libelementrem/libelementrem/BlockChain.cpp:753-766 | the block is appended to its parent's list in memo and database, and its own list in the database becomes empty |
| BlockChainObject.BlockChain.EraseNumbers | libelementrem/libelementrem/BlockChain.cpp:811-815 | the loop erases exactly the numbers of the reverted blocks from the memo |
| BlockChainObject.BlockChain.Reorganise | libelementrem/libelementrem/BlockChain.cpp:799-868 | routing, clearing and publishing backwards move the indexes over to the new chain |
| BlockChainObject.BlockChain.PublishRoute | libelementrem/libelementrem/BlockChain.cpp:819-868 | the backward loop to the common block enters exactly the fresh blocks |
| BlockChainObject.BlockChain.SplitRoute | libelementrem/libelementrem/BlockChain.cpp:963-974 | splitting the route at the common block gives the dead and the fresh blocks |
| BlockChainObject.BlockChain.ClearBlockBlooms | libelementrem/libelementrem/BlockChain.cpp:978-1018 | the loops over levels and items compute the specified clearing; every chunk the rebuild reads has been memoised by then |
| BlockChainObject.BlockChain.AddBlockBloom | libelementrem/libelementrem/BlockChain.cpp:829-866 | the bloom is or-ed into its slot at both levels and both chunks are written |
| BlockChainObject.BlockChain.WithBlockBloom | libelementrem/libelementrem/BlockChain.cpp:1266-1318 | for all bounds the result is strictly increasing and starts at or after earliest; of the canonical blocks whose bloom contains the query it holds exactly those looked at, which are all in the range unless that ends in the last 255 numbers of 32 bits |
| BlockChainObject.BlockChain.NumberHash | libelementrem/libelementrem/BlockChain.h:183-183 | numberHash reads through the memo; it is the canonical block with that number whenever the numbers are right, which CacheRuns.NumbersInEveryRunIff characterises |
| BlockChainObject.BlockChain.GarbageCollect | libelementrem/libelementrem/BlockChain.cpp:1178-1225 | dropping memoised bloom chunks, altered or not, and memoised details keeps the invariant; memoised numbers are never dropped |
| BlockChainObject.RouteToCandidate | libelementrem/libelementrem/BlockChain.cpp:802-806 | the route to the parent with the new block tacked on is the dead blocks, the meeting point once, and the fresh blocks |
| ChildLists.RecordedAt | libelementrem/libelementrem/BlockChain.cpp:748-766 | storing a block appends it to its parent's list and leaves every other list as it is read through the memo |
| ChildLists.RecordedExact | libelementrem/libelementrem/BlockChain.cpp:748-766 | storing a new block keeps the lists exact: every child of a stored block is listed once, in memo and database alike |
| ChildLists.RecordedTwice | libelementrem/libelementrem/BlockChain.cpp:748-766 | a stored block that is imported again is in its parent's list twice |
| ChildLists.RecordedAgain | libelementrem/libelementrem/BlockChain.cpp:766-766 | a stored block that is imported again has no children in the database, though the memo still has them |
| ChildLists.ForgottenFullIff | libelementrem/libelementrem/BlockChain.cpp:1206-1207 | dropping memoised details loses no child exactly if the database lists all children of the blocks dropped |
| ChildLists.RecordedAccounts | libelementrem/libelementrem/BlockChain.cpp:748-766 | as long as no child has gone missing, the database lacks a child of a block exactly if the block was stored again after it and no child of the block was stored since |
| CacheRuns.SoundInEveryRun | libelementrem/libelementrem/BlockChain.cpp:646-976 | in every state of every run of imports, reads and garbage collection all that is listed for a block are stored children of it |
| CacheRuns.ListedOnceInEveryRunIff | libelementrem/libelementrem/BlockChain.cpp:748-766 | in every run no child is ever listed twice exactly if no stored block is ever accepted again, which happens above the head only |
| CacheRuns.FullInEveryRunIff | libelementrem/libelementrem/BlockChain.cpp:748-766 | in every run no child ever goes missing from its parent's list exactly if no details are dropped of a block that was stored again after one of its children, with no child of it stored since; equally, if all details dropped are complete in the database |
| CacheRuns.ImportExactIff | libelementrem/libelementrem/BlockChain.cpp:660-766 | an import keeps the lists exact unless it stores a block again, and then a list has it twice |
| CacheRuns.AdoptRightIff | libelementrem/libelementrem/BlockChain.cpp:808-815 | a new head leaves every memoised number right exactly if those above the old head happen to be blocks of the new chain |
| CacheRuns.NumbersInEveryRunIff | libelementrem/libelementrem/BlockChain.cpp:808-867 | in every run every number up to the head always leads to the canonical block exactly if at each new head the memo has nothing but its blocks for the numbers above the old one |
| CacheRuns.ListsServe | libelementrem/libelementrem/Block.cpp:703-704 | the lists that runs keep are what picking uncles relies on, and have no block twice exactly if no list has |
| CacheRuns.EldersHaveChildren | libelementrem/libelementrem/Block.cpp:704-704 | as long as no child has gone missing, the list of each ancestor holds its successor, as is asserted when uncles are picked |
| CacheExamples.PickedTwice | libelementrem/libelementrem/Block.cpp:693-715 | a run in which a block above the head is imported again; for a block on the head it ends with the same uncle is picked twice, and may not be cited so |
| CacheExamples.LostChild | libelementrem/libelementrem/Block.cpp:704-704 | a run in which a block with a child is imported again and its details are dropped: the list of an ancestor is empty, against the assertion |
| CacheExamples.StaleNumber | libelementrem/libelementrem/BlockChain.h:183-183 | a run in which a number above a shorter head is looked up and a later head gets that number: it leads to a block that is not canonical |
| BloomIndex.ChunkIdInjective | libelementrem/libelementrem/BlockChain.h:312-312 | no two chunks of existing items share a key, although keys are computed modulo 2^32 |
| BloomIndex.AddBlockCovers | libelementrem/libelementrem/BlockChain.cpp:829-866 | adding a block covers it at both levels, durably, and uncovers nothing |
| BloomIndex.ClearBlocksCovers | libelementrem/libelementrem/BlockChain.cpp:978-1018 | clearing reverted blocks uncovers no block before them |
| BloomIndex.WithBlockBloom | libelementrem/libelementrem/BlockChain.cpp:1266-1318 | the query returns, strictly increasing, exactly the block numbers it looks at whose slots at both levels contain the query |
| BloomIndex.ScannedExactly | libelementrem/libelementrem/BlockChain.cpp:1274-1275 | a query looks at every number from earliest to latest, none before, and the next 256-block chunk unless latest is a multiple of 256 |
| BloomIndex.ScanWraps | libelementrem/libelementrem/BlockChain.cpp:1251-1274 | for the last 255 numbers of 32 bits the loop bound wraps and nothing above 255 is looked at |
| ExecutionSafety.TransactConserves | libelementrem/libelementrem/Executive.cpp:191-458 | any tree of calls and creates run as one transaction: the balances after, what killed accounts held and what self-suicides burned add up to the balances before, and no balance reaches 2^256 |
| ExecutionSafety.ExecConserves | libelementrem/libelementrem/Executive.cpp:343-419 | a frame with everything nested in it conserves money |
| ExecutionSafety.CallConserves | libelementrem/libelementrem/Executive.cpp:266-299 | a call conserves money, failed or not |
| ExecutionSafety.CreateConserves | libelementrem/libelementrem/Executive.cpp:301-321 | a creation conserves money, failed or not |
| ExecutionSafety.FailedNestedCall | libelementrem/libelementrem/ExtVM.cpp:94-105 | to the caller a failed call is one that only cost gas: no effect, log, refund or suicide of it remains |
| ExecutionSafety.FailedNestedCreate | libelementrem/libelementrem/ExtVM.cpp:107-120 | to the creator a failed creation cost all remaining gas and left only its own nonce increment |
| ExecutionSafety.FailedTransaction | libelementrem/libelementrem/Executive.cpp:394-458 | a failed transaction changes only the sender's nonce, the sender's balance by gas times price, and the author's balance by as much; no logs |
| ExecutionSafety.GasWithinLimit | libelementrem/libelementrem/Executive.cpp:191-241 | gas used is at most the transaction's gas, so cumulative gas stays within the block's limit |
| ExecutionSafety.BlockWithinLimits | libelementrem/libelementrem/Block.cpp:646-666 | over any list of transactions cumulative gas never passes the gas limit and no money is created |
| ExecutionSafety.ExecKeepsConceiving | libelementrem/libelementrem/Executive.cpp:301-321 | a contract under construction stays under construction whatever its init code does, so that its code can be set |
| ExecutiveObject.ExecuteTransaction | libelementrem/libelementrem/State.cpp:466-525 | executing on the cache over the trie gives exactly the accounts that the effects give on a plain account map; refused transactions change nothing; reverted ones leave the trie alone |
| ExecutiveObject.CheckTransaction | libelementrem/libelementrem/Executive.cpp:191-241 | the checks, in order, only read |
| ExecutiveObject.RunTransaction | libelementrem/libelementrem/Executive.cpp:243-258 | nonce and gas payment come before the frame's snapshot |
| ExecutiveObject.Finalize | libelementrem/libelementrem/Executive.cpp:421-458 | refunds capped at half the gas used, unused gas returned, the rest to the author, suicided accounts killed |
| ExecutiveObject.Executive.Call | libelementrem/libelementrem/Executive.cpp:266-299 | the snapshot is taken before the value moves; precompiled contracts and code-less addresses finish at once |
| ExecutiveObject.Executive.Create | libelementrem/libelementrem/Executive.cpp:301-321 | the new account keeps the address's balance, is in conception, and receives the endowment after the snapshot |
| ExecutiveObject.Executive.Go | libelementrem/libelementrem/Executive.cpp:343-419 | a throw restores the world the frame was built on and takes all gas; a creation pays for its code or, by the rules in force, fails or is left empty |
| ExecutiveObject.CallOp | libelementrem/libelementrem/ExtVM.cpp:94-105 | a nested executive runs only with enough balance and depth; its sub-state is accrued and its gas returned |
| ExecutiveObject.CreateOp | libelementrem/libelementrem/ExtVM.cpp:107-120 | the creator's nonce goes up before the snapshot, so that failure does not undo it |
| ExecutiveObject.ExtVM.constructor | libelementrem/libelementrem/ExtVM.h:45-49 | the copy of the cache can be put back at any time; the own address is cached |
| ExecutiveObject.ExtVM.Revert | libelementrem/libelementrem/ExtVM.h:88-92 | reverting restores the view of construction time and clears the sub-state |
| ExecutiveObject.ExtVM.SuicideHere | libelementrem/libelementrem/ExtVM.h:79-84 | the heir is paid first, then the balance is taken; in one's own favour it is burned |
| ExecutiveObject.ExtVM.SetStoreHere | libelementrem/libelementrem/ExtVM.h:55-55 | a store changes one slot of the own account |
| ExecutiveObject.TransferBetween | libelementrem/libelementrem/State.h:185-185 | a transfer moves the amount between two accounts of the view |
| AccountState.State.EnsureCached | libelementrem/libelementrem/State.cpp:215-235 | bringing an account into the cache never changes the view, except for a forced creation; entries that are not dirty always equal the trie, an invariant that every operation keeps |
| AccountState.State.BalanceOf | libelementrem/libelementrem/State.cpp:285-292 | reading a balance does not change the view |
| AccountState.State.TransactionsFrom | libelementrem/libelementrem/State.cpp:345-353 | reading a nonce does not change the view; for an address killed and not yet committed it is that of the dead entry |
| AccountState.State.NoteSendingFrom | libelementrem/libelementrem/State.cpp:294-306 | one nonce goes up by one, modulo 2^256; for a killed address nothing visible changes |
| AccountState.State.AddTo | libelementrem/libelementrem/State.cpp:308-316 | one balance grows, modulo 2^256; an unused address is created; money sent to a killed address is invisible, and is the one thing that leaves a dead entry holding something |
| AccountState.State.SubFrom | libelementrem/libelementrem/State.cpp:318-326 | one balance shrinks, or nothing changes and it fails, exactly if it is too small |
| AccountState.State.AddressHasCode | libelementrem/libelementrem/State.cpp:276-283 | a contract in conception counts as having code |
| AccountState.State.CodeAt | libelementrem/libelementrem/State.cpp:414-420 | reading code does not change the view |
| AccountState.State.StorageAt | libelementrem/libelementrem/State.cpp:355-375 | reading a slot writes it to the overlay but does not change the view |
| AccountState.State.SetStorageAt | libelementrem/libelementrem/State.h:195-195 | one slot of a cached live account changes, zero removing it; writing to any other address makes or leaves it a dead entry, whatever the trie holds |
| AccountState.State.ConceiveAt | libelementrem/libelementrem/Account.h:92-95 | the contract account replaces the old one and keeps its balance |
| AccountState.State.SetCodeAt | libelementrem/libelementrem/Account.h:155-156 | code is set on an account in conception |
| AccountState.State.KillAccount | libelementrem/libelementrem/Account.h:103-104 | the account disappears from the view |
| AccountState.State.CommitOne | libelementrem/libelementrem/State.h:273-312 | a dirty entry goes into the trie with its overlay merged and its code stored, or out of it if dead |
| AccountState.State.CommitStorage | libelementrem/libelementrem/State.h:290-297 | writing the overlay entry by entry gives the overlaid storage without zeros |
| AccountState.State.Commit | libelementrem/libelementrem/State.cpp:237-241 | commit empties the cache and leaves balance, nonce, code and every slot of every live address unchanged while killed addresses are gone |
| Uncles.AllKinFrom | libelementrem/libelementrem/BlockChain.cpp:1320-1334 | the loop collects the specified kin |
| Uncles.KinMeans | libelementrem/libelementrem/BlockChain.cpp:1320-1334 | kin are exactly the last seven blocks of the chain and what the last six of them cite |
| Uncles.CheckUncles | libelementrem/libelementrem/Block.cpp:528-619 | a block passes the uncle checks exactly if it cites at most two, distinct, each verified, a child of an ancestor two to seven generations back, no kin, not itself, and their parents are current; otherwise the first fault of the first faulty one is reported |
| Uncles.CheckUncle | libelementrem/libelementrem/Block.cpp:549-609 | the checks on one uncle in order, with the walk to where its parent must be |
| Uncles.NoFaultIff | libelementrem/libelementrem/Block.cpp:549-609 | an uncle has no fault exactly if it is one in terms of chains |
| Uncles.UpIsAncestor | libelementrem/libelementrem/Block.cpp:600-601 | the walk ends at the ancestor of that generation, or at the zero hash above the genesis block |
| Uncles.UncleGeneration | libelementrem/libelementrem/Block.cpp:576-609 | on a chain of enacted blocks every cited uncle is a child of an ancestor 2 to 7 generations back |
| Uncles.NeverAncestor | libelementrem/libelementrem/Block.cpp:537-558 | no block of a chain is cited as an uncle anywhere in that chain |
| Uncles.NeverTwice | libelementrem/libelementrem/Block.cpp:537-558 | what a block cites no later block of its chain cites again |
| Uncles.RewardedOnceInEveryHistory | libelementrem/libelementrem/Block.cpp:528-622 | however the tree of enacted blocks has grown, on every chain all rewarded uncles are distinct and none is on the chain |
| Uncles.GrowKeeps | libelementrem/libelementrem/Block.cpp:528-619 | adding a block that passed the checks invalidates no earlier citation |
| Uncles.PickUncles | libelementrem/libelementrem/Block.cpp:693-717 | the uncles picked for sealing are the first two candidates, generation after generation, children of the genesis block aside; they pass the checks made on enactment exactly if the first list with a candidate does not have the same block as its first two |
| Uncles.PicksPassIff | libelementrem/libelementrem/Block.cpp:693-715 | the exact condition on the lists of children, and that it holds whenever none has duplicates |
| Uncles.CandidatesTwiceIff | libelementrem/libelementrem/Block.cpp:700-714 | the first two candidates are the same exactly if, in the first generation whose list has a block that is no kin, the first two such entries are the same; candidates of different generations differ |
| Uncles.ListedTwiceIsRefused | libelementrem/libelementrem/Block.cpp:549-557 | if a list makes the first two candidates one block, enactment refuses the second as already mentioned |
| Rewards.UncleRewardIs | libelementrem/libelementrem/Block.cpp:673-673 | in 256-bit arithmetic an uncle d generations back earns (8 - d) eighths |
| Rewards.MintedBound | libelementrem/libelementrem/Block.cpp:668-677 | a block mints at least its reward and at most 45/16 of it |
| Rewards.RewardsTotal | libelementrem/libelementrem/Block.cpp:668-677 | the supply grows by exactly what is minted |
| Rewards.IssueBound | libelementrem/libelementrem/Block.cpp:668-677 | on every chain of enacted blocks the issue after n blocks is between n and 45/16 n rewards |
| PendingBlock.RewardsAtMostOnce | libelementrem/libelementrem/Block.cpp:646-811 | after any sequence of commits, executions and seals the state is the executed transactions with the rewards applied once if committed and not sealed, and not at all otherwise |
| PendingBlock.SupplyWithinOneReward | libelementrem/libelementrem/Block.cpp:646-783 | however often it is committed again, a block holds at most 45/16 rewards more than its base state, and its gas stays within the limit |
| PendingBlock.Block.CommitToSeal | libelementrem/libelementrem/Block.cpp:679-774 | takes earlier rewards back, picks the first two candidates as uncles, which are valid exactly if they differ, and applies the rewards; refused on a sealed block |
| PendingBlock.Block.ExecuteTransaction | libelementrem/libelementrem/Block.cpp:646-666 | takes rewards back first, even if the transaction is then refused or only tried out |
| PendingBlock.Block.PayRewards | libelementrem/libelementrem/Block.cpp:668-677 | the loop pays each uncle's author and then the block's |
| PendingBlock.Block.UncommitToSeal | libelementrem/libelementrem/Block.cpp:776-783 | the state before the rewards is put back |
| PendingBlock.Block.SealBlock | libelementrem/libelementrem/Block.cpp:785-811 | sealing needs a commit and a matching header, and leaves the state before the rewards |
| RunMap.HaveItem | libelementrem/libelementrem/BlockChainSync.cpp:54-65 | haveItem is membership in the plain map |
| RunMap.FindItem | libelementrem/libelementrem/BlockChainSync.cpp:67-80 | findItem is lookup in the plain map |
| RunMap.RemoveItemIs | libelementrem/libelementrem/BlockChainSync.cpp:82-97 | removeItem deletes n and the rest of its contiguous run, and nothing else |
| RunMap.RemoveAllIsBelow | libelementrem/libelementrem/BlockChainSync.cpp:99-118 | removeAllStartingWith restricts the plain map to the numbers below n |
| RunMap.MergeInserts | libelementrem/libelementrem/BlockChainSync.cpp:120-154 | mergeInto inserts into the plain map; runs stay non-empty, disjoint and non-adjacent |
| RunMap.Canonical | libelementrem/libelementrem/BlockChainSync.cpp:54-154 | such runs are a canonical form: equal plain maps, equal runs |
| RunMap.StartsRun | libelementrem/libelementrem/BlockChainSync.cpp:465-471 | a held number whose predecessor is not held starts a run, so m_headers.at(n) always succeeds |
| SyncSpec.BatchKeepsLinked | libelementrem/libelementrem/BlockChainSync.cpp:423-499 | once a common header is known, any batch of headers keeps the cached headers hash-linked across consecutive numbers |
| SyncSpec.HeaderLinkedIff | libelementrem/libelementrem/BlockChainSync.cpp:449-485 | taking a header keeps the cache linked exactly if a common header is known, the header is skipped or known, or it fits its neighbours |
| SyncExamples.UncheckedBatch | libelementrem/libelementrem/BlockChainSync.cpp:449-453 | a run that leaves unlinked headers in the cache when the common header is found |
| SyncExamples.UncheckedStart | libelementrem/libelementrem/BlockChainSync.cpp:449-456 | a run after which the first block to be offered is not a child of the last imported one |
| SyncRuns.OwnedInEveryRun | libelementrem/libelementrem/BlockChainSync.cpp:253-740 | in every state of every run each number marked as downloading is on the list of some peer |
| SyncRuns.NoOrphansInEveryRun | libelementrem/libelementrem/BlockChainSync.cpp:368-392 | in every run, once expired peers are cleared each mark left is on the list of a peer that is alive |
| SyncRuns.LinkedInEveryRun | libelementrem/libelementrem/BlockChainSync.cpp:423-499 | in every run linked headers stay linked as long as a common header is known |
| SyncRuns.CoveredInEveryRun | libelementrem/libelementrem/BlockChainSync.cpp:120-122 | in every run in which no new block strands a body, every body has its header, and no assertion fails but on a body that arrives |
| SyncRuns.NoFailureInEveryRun | libelementrem/libelementrem/BlockChainSync.cpp:120-122 | in every run in which each merged header finds no other id leading to its number and no new block strands a body, no assertion ever fails |
| SyncSafety.HeaderFailsIff | libelementrem/libelementrem/BlockChainSync.cpp:485-494 | mergeInto's assertion on an empty body fails exactly if the header is neither skipped nor known nor mismatched, has an empty body, and a body is held at its number |
| SyncSafety.BodyFailsIff | libelementrem/libelementrem/BlockChainSync.cpp:533-541 | mergeInto's assertion on a body fails exactly if its id leads to a held header that has a body |
| SyncSafety.CollectFailsIff | libelementrem/libelementrem/BlockChainSync.cpp:628-631 | the assertion after collecting fails exactly if all headers were processed and a body lies beyond them |
| SyncSafety.NewBlockFailsIff | libelementrem/libelementrem/BlockChainSync.cpp:671-677 | the assertion after a new block fails exactly if its run was all the headers but not all the bodies |
| SyncSafety.NewBlockCoveredIff | libelementrem/libelementrem/BlockChainSync.cpp:671-672 | dropping a block's run from both maps strands a body exactly if the header run holds a body beyond the body run |
| SyncSafety.IdsAgreeIff | libelementrem/libelementrem/BlockChainSync.cpp:475-497 | merging a header keeps the ids in agreement with the cached headers exactly if no other id left leads to its number and no body is held there |
| SyncSafety.AgreeingIff | libelementrem/libelementrem/BlockChainSync.cpp:475-497 | while every body is under its header, taking a header keeps ids and cached headers in agreement exactly if, when it is merged, no other id leads to its number |
| SyncExamples.StrandedBodyFails | libelementrem/libelementrem/BlockChainSync.cpp:671-677 | a run in which a new block takes all headers away but not a body: the assertion fails |
| SyncExamples.StrandedBodyFailsLater | libelementrem/libelementrem/BlockChainSync.cpp:120-122 | a run in which a header is left: the stranded body then fails mergeInto's assertion when its header comes again |
| SyncExamples.StaleIdFails | libelementrem/libelementrem/BlockChainSync.cpp:475-475 | a run that leaves the id of a dropped header behind: two bodies lead to one number and the assertion fails |
| SyncChecks.OwnChecksInEveryRun | libelementrem/libelementrem/BlockChainSync.cpp:826-841 | in every run the program's run-time checks pass after a step exactly if the state before it meets the conditions of that step, given below |
| SyncChecks.NextChecks | libelementrem/libelementrem/BlockChainSync.cpp:826-841 | for every step from every state, all checks and whether synchronisation is idle after it, from the state before it |
| SyncChecks.ChecksMean | libelementrem/libelementrem/BlockChainSync.cpp:826-841 | in every run the checks come down to: no held header at or below the last imported block, no genesis block as common block of a longer chain, and no lists while nothing is marked |
| SyncChecks.HeaderAboveIff | libelementrem/libelementrem/BlockChainSync.cpp:425-447 | no held header is too old after a header exactly if: skipped, it was so before; known, all held are above it; merged, it was so before and a common header is known or the header is above the last imported block |
| SyncChecks.HeaderRootedIff | libelementrem/libelementrem/BlockChainSync.cpp:441-447 | the genesis block is not the common block after a known header exactly if its number is not 0; other headers change nothing |
| SyncChecks.HeaderKeptIff | libelementrem/libelementrem/BlockChainSync.cpp:464-482 | of headers and of bodies, a header that cuts leaves lists only with marks exactly if a mark outside the dropped run is left; other headers change nothing |
| SyncChecks.HeaderContinuesIff | libelementrem/libelementrem/BlockChainSync.cpp:441-456 | the header after the last imported block is its child after a header exactly if: known, it fits what is held above it; merged right above, its parent is the last imported block; otherwise if it was so before |
| SyncChecks.BatchIff | libelementrem/libelementrem/BlockChainSync.cpp:423-498 | for a batch, the conditions of its headers one after the other, up to one that makes synchronisation start over |
| SyncChecks.ClearKeptIff | libelementrem/libelementrem/BlockChainSync.cpp:350-366 | of headers and of bodies, clearing a peer leaves lists only with marks exactly if no other peer has a list or a mark is left that is not on its list |
| SyncChecks.PurgeKeptIff | libelementrem/libelementrem/BlockChainSync.cpp:368-392 | the same for clearing all expired peers |
| SyncChecks.CollectBreaksIff | libelementrem/libelementrem/BlockChainSync.cpp:562-613 | collecting ends in a restart or a new search exactly if the unknown queue is full or the answer to a complete block, all before it having passed, does not pass |
| SyncChecks.ProcessedIff | libelementrem/libelementrem/BlockChainSync.cpp:615-632 | otherwise no header left is too old, and lists are left without marks exactly if they were before and not everything held is complete |
| SyncChecks.ProcessedRootedIff | libelementrem/libelementrem/BlockChainSync.cpp:574-581 | the common block is above the genesis block after collecting exactly if it was or a block was imported |
| SyncChecks.ProcessedContinuesIff | libelementrem/libelementrem/BlockChainSync.cpp:574-581 | the header after the last imported block is its child after collecting unless the last complete block was imported and the header after it is not its child |
| SyncChecks.RequestAboveIff | libelementrem/libelementrem/BlockChainSync.cpp:289-304 | a request that searches leaves no header too old exactly if header 0 is not held, and makes the genesis block common exactly if the last imported block is 0 or header 1 is the lowest; it continues the chain exactly if the header above where it starts is a child of the block there |
| SyncChecks.RequestKeptIff | libelementrem/libelementrem/BlockChainSync.cpp:253-343 | of headers and of bodies, a request leaves lists only with marks exactly if clearing the peer does or it asks for some |
| SyncChecks.NewBlockIff | libelementrem/libelementrem/BlockChainSync.cpp:660-677 | a new block leaves no header too old exactly if those that are lie in its run, and lists only with marks, of headers and of bodies, exactly if another mark is left or its runs are all that is held; it continues the chain exactly if the header above it, should it stay, is its child |
| SyncChecks.OnlyTheseBreak | libelementrem/libelementrem/BlockChainSync.cpp:826-841 | only headers make a held one too old, only headers or the search make the genesis block common, and starting, collecting, resetting and restarting leave no list without marks |
| SyncChecks.AboveInEveryRunIff | libelementrem/libelementrem/BlockChainSync.cpp:834-835 | in every run no held header is ever too old exactly if every batch of headers meets its conditions |
| SyncExamples.OwnCheckFails | libelementrem/libelementrem/BlockChainSync.cpp:836-837 | a run in which the only header asked for arrives as a block on its own and the check fails |
| SyncExamples.AnswerFails | libelementrem/libelementrem/BlockChainSync.cpp:836-837 | a run in which the checks pass until one of two peers answers: the list of the other is left without marks |
| SyncExamples.OldHeaderFails | libelementrem/libelementrem/BlockChainSync.cpp:834-835 | a run in which a known header moves the last imported block past a held one and the check fails |
| SyncExamples.SearchHeaderFails | libelementrem/libelementrem/BlockChainSync.cpp:834-835 | a run in which the first unknown header of the search for a common one is at the last imported block, the queue is full when blocks are requested next, and the check fails |
| SyncExamples.GenesisIsCommon | libelementrem/libelementrem/BlockChainSync.cpp:832-833 | a run in which the search ends at the genesis block of a longer chain and the check fails |
| SyncSpec.AskedHeldIff | libelementrem/libelementrem/BlockChainSync.cpp:293-346 | a header already held is asked for exactly if no common header is known, header 0 is held, and so is the last imported block, above 1 |
| SyncExamples.UnderflowReachable | libelementrem/libelementrem/BlockChainSync.cpp:296-298 | a run with two made-up headers after which that happens |
| SyncSpec.ListedNotAskedIff | libelementrem/libelementrem/BlockChainSync.cpp:322-336 | a request lists and marks a number without asking for it exactly if it asks for one that is on its way already |
| SyncSpec.PurgedOwned | libelementrem/libelementrem/BlockChainSync.cpp:368-392 | after clearing the expired peers each mark left is on the list of a peer that is alive |
| ChainSyncObject.ChainSync.OnPeerBlockHeaders | libelementrem/libelementrem/BlockChainSync.cpp:401-499 | in every state a batch is the specified step on the plain maps, up to the first mismatch or failed assertion; ownership is kept |
| ChainSyncObject.ChainSync.TakeHeader | libelementrem/libelementrem/BlockChainSync.cpp:425-498 | one header: skipped, known, mismatching (restart), or merged after cutting what does not fit above, with the assertion on the empty body |
| ChainSyncObject.ChainSync.CutFollowing | libelementrem/libelementrem/BlockChainSync.cpp:465-482 | the run at n is found, its marks and the new header's own id are erased, and both maps are cut at n |
| ChainSyncObject.ChainSync.CollectBlocks | libelementrem/libelementrem/BlockChainSync.cpp:547-634 | consecutive headers from last imported + 1 on are offered, each the parent of the next if the cache is linked, the first a child of the last imported block exactly if the header held there is; then everything is reset, or exactly the processed prefix leaves both maps, or the assertion fails |
| ChainSyncObject.ChainSync.TakeBody | libelementrem/libelementrem/BlockChainSync.cpp:527-542 | a body is ignored unless its id leads to a held header; it enters the plain map there, with the assertion |
| ChainSyncObject.ChainSync.OnPeerBlockBodies | libelementrem/libelementrem/BlockChainSync.cpp:504-545 | in every state a batch of bodies is the specified step, up to a failed assertion |
| ChainSyncObject.ChainSync.GiveUp | libelementrem/libelementrem/BlockChainSync.cpp:582-600 | a rejected block restarts synchronisation, one out of place resets it and starts the search for a common header; the branch that would return without either is never taken |
| ChainSyncObject.ChainSync.DropProcessed | libelementrem/libelementrem/BlockChainSync.cpp:615-632 | the processed prefix leaves both maps, and synchronisation completes if no header is left |
| ChainSyncObject.ChainSync.RequestBlocks | libelementrem/libelementrem/BlockChainSync.cpp:253-348 | ends, and is the specified step: marks stay owned; bodies are asked for exactly if one of the first run is neither held nor on its way, headers exactly if then one below a held header is; the list of headers is exactly the one that headers, marks and last imported block before the request lead to; all that are listed are asked for exactly if none on its way lies between the first and the last of them |
| ChainSyncObject.FindGap | libelementrem/libelementrem/BlockChainSync.cpp:307-343 | the loops end with the specified list; its numbers are neither held nor on their way, and neither is any held that is asked for |
| ChainSyncObject.NothingToAsk | libelementrem/libelementrem/BlockChainSync.cpp:316-343 | nothing is asked for only if every missing number before the last run is on its way |
| ChainSyncObject.UnmarkedAskedIff | libelementrem/libelementrem/BlockChainSync.cpp:324-336 | all numbers of a list are among the first so many from its start exactly if none of these is on its way |
| ChainSyncObject.GapSkipsIff | libelementrem/libelementrem/BlockChainSync.cpp:307-336 | for every state, the list that a request would make has a number that is not asked for exactly if one that is on its way lies between the first and the last of the list |
| SyncExamples.ListWithGap | libelementrem/libelementrem/BlockChainSync.cpp:318-336 | a run after which, with 13 on its way, 12, 14, 15 and 16 are listed and marked but 12 to 15 asked for, and 16 is not |
| SyncExamples.ScanFinds | libelementrem/libelementrem/BlockChainSync.cpp:307-336 | the search over the runs of that state finds this list |
| ChainSyncObject.NeededBodies | libelementrem/libelementrem/BlockChainSync.cpp:263-283 | bodies of the first run that are neither held nor on their way, with the headers' hashes |
| ChainSyncObject.ChainSync.ClearPeerDownload | libelementrem/libelementrem/BlockChainSync.cpp:350-366 | the peer's list and marks go; the rest stays owned |
| ChainSyncObject.ChainSync.ClearExpired | libelementrem/libelementrem/BlockChainSync.cpp:368-392 | both maps are purged of the expired peers; ownership is kept |
| ChainSyncObject.ChainSync.ResetSync | libelementrem/libelementrem/BlockChainSync.cpp:729-740 | everything is emptied |
| ChainSyncObject.ChainSync.RestartSync | libelementrem/libelementrem/BlockChainSync.cpp:742-752 | everything is emptied and the search starts at the chain's head without a common header |
| ChainSyncObject.ChainSync.OnNewBlockImported | libelementrem/libelementrem/BlockChainSync.cpp:660-678 | the block's marks and both runs from its number on go; synchronisation completes if no header is left, or the assertion fails |
| GasEstimate.Bisect | libelementrem/libelementrem/ClientBase.cpp:119-157 | the search ends for all bounds, in order or not, between them, or an execution throws; an estimate below the top was enough and is the run reported; one above the bottom was not enough just below |
| GasEstimate.EstimateGas | libelementrem/libelementrem/ClientBase.cpp:112-165 | if executions between the bounds do not throw, success is monotone and the bounds are in order, the least sufficient amount, or the upper bound if none is; if the intrinsic gas is above the cap, 0 |
| Icap.Total | libelementrem/libelecore/ICAP.cpp:42-48 | the loop computes the number a text stands for |
| Icap.MakeIban | libelementrem/libelecore/ICAP.cpp:38-53 | writes country, check digits and data |
| Icap.Checksum | libelementrem/libelecore/ICAP.cpp:43-49 | check digits are 02 to 98 and make the rearranged number 1 modulo 97 |
| Icap.FromIbanInverts | libelementrem/libelecore/ICAP.cpp:55-65 | fromIBAN inverts iban for every two-letter code and alphanumeric data |
| Icap.AcceptedIff | libelementrem/libelecore/ICAP.cpp:55-65 | a text is accepted exactly if its rearranged number is 1 modulo 97 and its check digits are 02 to 98 |
| Icap.RefusedThoughCongruent | libelementrem/libelecore/ICAP.cpp:55-65 | a text that satisfies the congruence is refused exactly if its digits are 00, 01 or 99 and those the writer uses 97, 98 or 02 |
| Icap.CongruentTexts | libelementrem/libelecore/ICAP.cpp:55-65 | such texts: XE0027, XE019 and XE9988 |
| Icap.MistypedRejected | libelementrem/libelecore/ICAP.cpp:55-65 | a digit replaced by another digit, or a letter by another letter, anywhere in the data is always rejected |
| Icap.ToBase36 | libweb3core/libdevcore/Base64.h:41-52 | the loop computes the base-36 digits |
| Icap.FromBase36 | libweb3core/libdevcore/Base64.h:54-60 | the loop computes the positional value modulo 2^160 |
| Icap.Base36RoundTrip | libweb3core/libdevcore/Base64.h:41-60 | reading back the digits of a 160-bit number gives the number |
| Icap.AddressFits | libelementrem/libelecore/ICAP.cpp:114-117 | 2^160 < 36^31, so an address needs at most 31 digits |
| Icap.Encode | libelementrem/libelecore/ICAP.cpp:110-135 | padding to 30 digits, and the refusal of names that cannot be encoded |
| Icap.DirectRoundTrip | libelementrem/libelecore/ICAP.cpp:78-117 | decoded inverts encoded for every 160-bit address, whatever its first byte |
| Icap.IndirectRoundTrip | libelementrem/libelecore/ICAP.cpp:78-135 | names that can be encoded come back in upper case; all others are refused |

## Left out

- RLP, SHA3, signatures, LevelDB and the Merkle-Patricia trie: replaced by abstract hashes and maps.
- The virtual machine's instructions: replaced by effect trees; that a run never gains gas is built into them.
- Exceptions from the virtual machine that are not VM exceptions: the program itself says they should not happen.
- Queue runs with retryAllUnknown, or with clear while a verifier holds a job: they deliberately break the order and the counts.
- Exact equality of known count, known size and queue difficulty: bad blocks are not subtracted and future blocks are counted again on tick, so only lower bounds hold.
- BlockChain::insert, rewind, rescue and rebuild, the memo of last hashes, transaction addresses, receipts: outside the import-only run.
- AccountState.State.Commit: does not keep whether an account without code counts as having code while in conception, as intended by the program.
- Copying a Block, which takes the rewarded state as the new base, and populating one from the chain.
- Peer ratings, synchronisation status, new-hash announcements and the choice of peers.
- Text outside ASCII in ICAP, and looking up indirect addresses in a registry.
- User interfaces, RPC, key management, gas pricing, mining, networking.
- BlockChainObject.BlockChain.Import: leaves out the transaction addresses and receipts; reads of details other than those of the block and its parent are steps of their own.
- PendingBlock.Block.ExecuteTransaction: the account states are values, since the program copies whole State objects; that trying a transaction out leaves the trie alone is stated by ExecutiveObject.ExecuteTransaction.
- ChainSyncObject.ChainSync.RestartSync: does not clear the block queue, which belongs to the other component.
- Synchronisation in builds without assertions: what mergeInto does with a number that is held is not modelled.
- How an uncle's header is verified against its parent's, and how a body's id is computed from it: an oracle and a parameter.
- The estimate of a search with bounds out of order in which executions do not throw, beyond lying between them.
