# Creditcoin: the ledger and the PoW chain selection, in Dafny

Two systems of the repository are modelled as step machines and proved to keep their invariants over
whole runs.

**The ledger** (`ccprocessor/processor.cpp`). `Ledgers` holds the records, one map per address prefix.
`Handlers` and `Upkeep` say what each of the sixteen commands does: the condition under which it is
accepted and the ledger it leaves. `Application.Applicator` is the imperative form, a class whose methods
read and overwrite the maps as the processor does; each is proved to do exactly that. The other modules
prove what holds over all runs: `Terms` (on what terms commands are accepted, in numbers, positions and
dates, and that repaid deals were paid for), `Conservation` and `Losses` (coins), `Settlement` (transfers),
`Locks` (deal locks), `Trades` and `Chains` (orders and deals), `Rewards` (mining rewards), `Interest`
(compound interest). `Replay` and `Revalidation` model the re-validation engine with its three layers of writes;
`LedgerReplay` runs the ledger's own commands on it, with the ledger written out as records under keys, and
`LateEntries` says when a block may be entered past its first transaction. `Base64` is the codec of the
transition file.

**The block pipeline** (`PoW/`). `BlockTree` holds blocks and ancestor paths. `Completion` is the
completer, `BlockCaching` the reference-counted cache, `ForkDiffs` the fork diffs of the validator,
`Difficulty` and `ForkChoice` the difficulty rule and the fork resolver, `Mining` and `Publishing` the
solver, the publisher's consensus text and the verifier. `Journal` is the chain controller with its
validation workers as a state machine of atomic steps (blocks arrive, a worker starts, looks at the next
block, writes a verdict, decides, calls back); `JournalQueues`, `JournalSafety`, `JournalVerdicts`,
`JournalProgress` and `JournalSolo` prove over every interleaving what it keeps and that it forgets no block,
and `ChainControl.ChainController` is the class whose methods take exactly these steps. `RewardList` answers reward requests, and `RewardReplies` shows that
a right answer gives the ledger the signers its awards are due to.

## Findings

Where a property does not hold of the code without a condition, the condition is proved exact, and a
concrete case shows the failure.

- Coins are lost, never made. `Losses.SolventExactly` says when nothing is lost: every accepted command is
  spotless, that is, it overwrites no live fee record (a reused nonce does) and it is not a sweep that
  forgets an old fee record or, in replay up to the fix block, a lapsed deal with a fee. The fee sweep reads
  the payer's wallet but stores the new balance under another key (lines 2416 and 1087 of the processor), so
  the credit never arrives. `LossCases.NonceReuseLoses`, `LossCases.FeeSweepLoses` and
  `NonceCases.DealSweepLoses` are runs from the empty ledger, one of each kind.
- What holds of orders and deals needs fresh nonces: in `NonceCases.ReusedNonceBreaks` one reused nonce lets a
  bid go into two deals, the second with another amount than its ask, no maturity and addresses on two chains.
  Fresh nonces are enough to keep a deal on one chain, whatever blockchains are called (`Chains.RunChained`).
- Entering a later block past its first transaction replays the start of the block left behind
  (`blocks[updatedBlockIdx]`, line 935 of the processor). Every block opens with the same housekeeping
  command, so for published blocks this is harmless exactly when neither block executes anything else there
  (`LateEntries.LateEntryExactly`). In `LateEntryCase` a payment runs twice and another not at all.
- A worker reads a block's status, validates the block, and writes its verdict without reading the status
  again. A verdict is lost exactly when it is written over the opposite one (`JournalVerdicts.LostExactly`
  for a step, `JournalVerdicts.RunStandsExactly` for a run); as long as that does not happen, committed
  blocks are valid (`JournalVerdicts.RunFair`). With one worker thread, the default of the validator's pool,
  it never happens, not even when checks end with an exception (`JournalSolo.SoloRun`). With two it can:
  `JournalRace.CommittedTurnsInvalid` is a run from the initial state, with at most two busy workers and no
  check ending with an exception, after which a committed block is invalid.
- Comparing a mined head with itself raises an error, because the pace of its empty fork is never set
  (`ForkErrors.SelfRaises`). `ForkChoice.ForkResolver.CompareForks` says exactly when a comparison adopts and
  when it raises, and `ForkErrors.BreaksByPaths` when the walk down to the common ancestor does. No two
  heads beat each other, but the pace of a fork is measured from where each pair of paths meets, and three
  equally heavy heads can beat each other in a circle (`ForkCycle.PaceGoesRound`).
- The block cache survives a reorganisation of the store exactly when every block taken out that cached blocks
  follow is cached and counts them (`BlockCaching.ForgetExactly`). A purge may have dropped a committed block from the
  cache; a reorganisation then leaves its successor without a predecessor
  (`BlockCaching.ReorganisationBreaks`).
- The answer to a reward request is right exactly when the store agrees with the head at the first height or
  need not be asked (`RewardList.RewardListRequest.Respond`). When the store is the path of its own head, a
  wrong answer needs a fork deeper than the depth limit (`RewardList.WrongOnlyWhenDeep`), and one such fork
  gets one (`RewardFork.DeepForkMisleads`).
- A block published from a stopped solver can fail verification: the publisher waits half an hour from the
  start of mining, the verifier measures from the previous block. `Publishing.StoppedVerifies` gives the exact
  condition and `Publishing.StoppedRefused` a refused block.
- The completer delivers predecessors first unless the chain controller knew the predecessor already
  (`Completion.ParentsFirst`, `Completion.KnownParentMayFollow`).

## Modelling decisions

- A handler either succeeds or is rejected and changes nothing; error texts are not modelled. The answer of
  the gateway, the reward reply, the reward fraction of each period and the fix block are inputs.
- Ids are hashes; the model uses the hashed fields themselves, so different fields give different ids.
- Amounts and fees of orders stay texts where the processor compares texts. Balances are natural numbers.
  Lower-casing is modelled for ASCII letters.
- The processor's `assert` statements are preconditions. Sweeps list the current state, in any order.
- Each delivery starts with a fresh command layer and is not replaying, as the processor creates its
  applicator and context for each one. An exception in a command leaves its writes in the command's own layer.
  A replayed command sees only the records that exist and the height. A delivery that enters a later block
  needs the block left behind to be long enough, as the vector access of the source does.
- Each block is numbered one above its predecessor. Times are real numbers without rounding. The clock is an
  input of each call, and the difficulty settings do not change during a run.
- Methods of the controller hold its lock and are atomic. A worker's look at a status and its write of a
  verdict are two steps, and any other worker may act in between. What a check comes to (valid, invalid,
  exception) is an input.
- The controller's model never drops a block from its cache; what a purge may drop is the subject of
  `BlockCaching`. The completer's caches only grow.

## Model

| member | source | states |
|---|---|---|
| Application.Applicator.SendFunds | ccprocessor/processor.cpp:1418-1465 | does exactly the specified transfer: signer and receiver differ, the signer can pay amount and fee, nothing else moves |
| Application.Applicator.RegisterAddress | ccprocessor/processor.cpp:1467-1499 | registers an address once under its lower-cased key and charges the fee; otherwise rejected |
| Application.Applicator.RegisterTransfer | ccprocessor/processor.cpp:1501-1610 | records a transfer along the order's own route, with the gain added, once per blockchain transaction |
| Application.Applicator.AddAskOrder | ccprocessor/processor.cpp:1612-1656 | records an ask keyed by the nonce on an address of the signer |
| Application.Applicator.AddBidOrder | ccprocessor/processor.cpp:1658-1702 | records a bid keyed by the nonce on an address of the signer |
| Application.Applicator.AddOffer | ccprocessor/processor.cpp:1704-1781 | accepts exactly the pairs of live, matching orders of different owners on one chain and network |
| Application.Applicator.AddDealOrder | ccprocessor/processor.cpp:1783-1852 | turns an offer into a deal, escrows the bid's fee and deletes offer and orders |
| Application.Applicator.CompleteDealOrder | ccprocessor/processor.cpp:1854-1936 | fills the loan slot once with an unprocessed transfer of the deal's amount and pays the escrowed fee to the investor |
| Application.Applicator.LockDealOrder | ccprocessor/processor.cpp:1938-1971 | locks an unlocked deal with a loan for its fundraiser |
| Application.Applicator.CloseDealOrder | ccprocessor/processor.cpp:1973-2040 | fills the repayment slot with a transfer of at least the debt at the head |
| Application.Applicator.Exempt | ccprocessor/processor.cpp:2042-2089 | lets the investor close the deal with any unprocessed transfer of it, loan or not |
| Application.Applicator.AddRepaymentOrder | ccprocessor/processor.cpp:2091-2154 | records an offer to take over the loan; an unregistered address counts as blank |
| Application.Applicator.CompleteRepaymentOrder | ccprocessor/processor.cpp:2156-2192 | locks the deal for the investor who accepts a repayment order |
| Application.Applicator.CloseRepaymentOrder | ccprocessor/processor.cpp:2194-2250 | hands the deal to the collector, unlocks it and uses up the transfer |
| Application.Applicator.CollectCoins | ccprocessor/processor.cpp:2252-2292 | mints coins once per Ethereum transaction |
| Application.Applicator.Housekeeping | ccprocessor/processor.cpp:2294-2423 | sweeps, rewards and moves the processed height exactly when due; a failure changes nothing |
| Application.Applicator.SweepDeals | ccprocessor/processor.cpp:2364-2387 | forgets exactly the lapsed deals without loan and refunds their fundraisers when refunds are due |
| Application.Applicator.SweepFees | ccprocessor/processor.cpp:2398-2419 | forgets exactly the fee records older than a year, crediting no wallet |
| Application.Applicator.RewardBlocks | ccprocessor/processor.cpp:1288-1353 | makes exactly the awards due, in order, or fails without a reply |
| Application.Applicator.RewardReplayed | ccprocessor/processor.cpp:1294-1312 | replayed, the loop from the named block downward makes the specified awards |
| Application.Applicator.RewardSigners | ccprocessor/processor.cpp:1313-1353 | live, the loop over the returned signers makes the specified awards |
| Application.Applicator.AwardSigner | ccprocessor/processor.cpp:1231-1286 | credits the reward of a height by the old or the declining formula |
| Application.Applicator.Apply | ccprocessor/processor.cpp:768-865 | every command name leads to the step of its own handler |
| Conservation.StepConserves | ccprocessor/processor.cpp:1365-1395 | supply after plus lost equals supply before plus minted, for every command in every state |
| Conservation.RunConserves | ccprocessor/processor.cpp:1365-1395 | the same for every run from every ledger |
| Conservation.Solvent | ccprocessor/processor.cpp:1231-1286 | wallets, live fees and escrow never exceed what was minted, and equal it iff nothing was lost |
| Conservation.RefundedTotal | ccprocessor/processor.cpp:2364-2387 | refunding lapsed deals hands out exactly what they held |
| Losses.LosesNothing | ccprocessor/processor.cpp:2364-2419 | a step loses nothing iff it is rejected or spotless |
| Losses.SolventExactly | ccprocessor/processor.cpp:1365-1373 | equality of supply and minted holds iff every accepted step of the run is spotless |
| Losses.FreshNoncesSpotless | ccprocessor/processor.cpp:1365-1373 | with fresh nonces every command but housekeeping is spotless |
| LossCases.NonceReuseLoses | ccprocessor/processor.cpp:1365-1373 | a run from the empty ledger that reuses a nonce and loses a fee |
| LossCases.FeeSweepLoses | ccprocessor/processor.cpp:2398-2419 | a run from the empty ledger whose sweep loses a fee |
| NonceCases.DealSweepLoses | ccprocessor/processor.cpp:2364-2387 | a replayed run from the empty ledger whose sweep forgets a lapsed deal and loses its fee |
| Losses.SweepsSucceed | ccprocessor/processor.cpp:2364-2419 | in reachable ledgers every wallet a sweep needs exists, so housekeeping fails only for signer or reply |
| Terms.BalanceExactly | ccprocessor/processor.cpp:1365-1395 | every account after an accepted command: it changes by what the command moves and the fee, and nobody else's does |
| Terms.SendExactly | ccprocessor/processor.cpp:1418-1465 | accepted iff the receiver is somebody else and the signer has amount and fee; no record but wallets and fees changes |
| Terms.RegisterExactly | ccprocessor/processor.cpp:1467-1499 | accepted iff the fee can be paid and the key is free; the record names the signer |
| Terms.TransferExactly | ccprocessor/processor.cpp:1501-1610 | accepted iff fee, route, owner, chain, free key and gateway allow it |
| Terms.TransferRecorded | ccprocessor/processor.cpp:1560-1600 | the recorded amount reads as the order's amount plus the gain, or as nothing for the transaction "0" |
| Terms.AskExactly | ccprocessor/processor.cpp:1612-1656 | accepted iff the address is the signer's, the amounts can be read and the nonce is free; the record has the terms given |
| Terms.BidExactly | ccprocessor/processor.cpp:1658-1702 | the same for bids |
| Terms.TextLessExactly | ccprocessor/processor.cpp:1704-1781 | fees are compared as texts: at the first difference, or by which one ends |
| Terms.OfferExactly | ccprocessor/processor.cpp:1704-1781 | accepted iff both orders are live, of two owners on one chain, for one amount, the bid's fee not before the ask's and the ask's rate within the bid's |
| Terms.DealExactly | ccprocessor/processor.cpp:1783-1852 | accepted iff the bid's owner can pay its fee while the offer lives; the deal runs from the ask's address to the bid's for the bid's terms |
| Terms.CompleteExactly | ccprocessor/processor.cpp:1854-1936 | accepted iff the investor's own unprocessed transfer of the deal's amount comes in time; fills the loan and dates the deal |
| Terms.LockExactly | ccprocessor/processor.cpp:1938-1971 | accepted iff the deal has a loan and no lock and is the signer's |
| Terms.CloseExactly | ccprocessor/processor.cpp:1973-2040 | accepted iff the locked deal's fundraiser shows an unprocessed transfer of at least the loan with interest for every period begun |
| Terms.RunRepaid | ccprocessor/processor.cpp:1973-2089 | along every run a repaid deal was closed for all that was owed, or exempted by its investor |
| Terms.ExemptExactly | ccprocessor/processor.cpp:2042-2089 | accepted iff the investor names an open transfer of the open deal |
| Terms.TakeoverOffered | ccprocessor/processor.cpp:2091-2154 | accepted iff the loan runs, the signer is neither party and the offered address is another one on the chain |
| Terms.TakeoverAnswered | ccprocessor/processor.cpp:2156-2192 | accepted iff the unlocked deal's old source is the signer's; locks the deal |
| Terms.TakeoverClosed | ccprocessor/processor.cpp:2194-2250 | accepted iff the collector shows an unprocessed transfer of the order's amount while the source's owner holds the lock |
| Terms.CollectExactly | ccprocessor/processor.cpp:2252-2292 | accepted iff the Ethereum transaction is new and verified |
| Terms.SweepExactly | ccprocessor/processor.cpp:2332-2362 | a sweep keeps exactly the orders and offers whose last block has not passed |
| Terms.SweepLeavesLoans | ccprocessor/processor.cpp:2364-2419 | and the deals with loan, the answered repayment orders, and fees for 525600 blocks |
| Terms.SweepFails | ccprocessor/processor.cpp:2364-2419 | a sweep fails iff a fundraiser to be refunded or the payer of an old fee has no wallet |
| Terms.RefundExactly | ccprocessor/processor.cpp:2364-2387 | a wallet whose owner has no lapsed deal without loan is refunded nothing |
| Terms.BatchExactly | ccprocessor/processor.cpp:2306-2315 | without a block named, ten heights are due once the head is seventy blocks ahead |
| Terms.HousekeepingExactly | ccprocessor/processor.cpp:2317-2330 | with a block named, when housekeeping is rejected, idle, or moves the height to it |
| Terms.RewardExactly | ccprocessor/processor.cpp:1231-1286 | the reward of a block: 222 coins, or 28 times the fraction of its period once the update is 500 blocks behind |
| Terms.AwardAmounts | ccprocessor/processor.cpp:1288-1353 | every award is the reward of its height |
| Terms.AwardsExactly | ccprocessor/processor.cpp:1231-1286 | awards add up account by account |
| Settlement.RunSettled | ccprocessor/processor.cpp:1884-1935 | in every reachable ledger each filled slot names an existing processed transfer of its own order, loans of the deal's amount |
| Settlement.SlotsDistinct | ccprocessor/processor.cpp:2000-2039 | no transfer fills two of the loan, repayment and repayment-order slots |
| Settlement.UsedOnce | ccprocessor/processor.cpp:2211-2249 | over a whole run no transfer is used twice, not even after its deal was swept |
| Locks.RunDisciplined | ccprocessor/processor.cpp:1938-1971 | a locked deal has its loan, and repayment orders refer to such deals, in every run |
| Locks.FrozenForever | ccprocessor/processor.cpp:2091-2192 | once the fundraiser holds the lock while the source is somebody else's, lock and source never change again |
| Trades.OrdersUsedOnce | ccprocessor/processor.cpp:1783-1852 | with fresh nonces each ask and each bid goes into at most one deal |
| Trades.RunDealTerms | ccprocessor/processor.cpp:1704-1852 | a new deal has both orders' amount, different owners, one blockchain and network |
| Trades.RunSound | ccprocessor/processor.cpp:1704-1781 | with fresh nonces an offer always refers to the orders it was made from |
| Chains.RunMature | ccprocessor/processor.cpp:2022-2031 | the divisor maturity of every deal is positive in runs with fresh nonces |
| Chains.RunChained | ccprocessor/processor.cpp:2131-2249 | with fresh nonces source and destination of every deal stay on one chain through every reassignment |
| NonceCases.ReusedNonceBreaks | ccprocessor/processor.cpp:1658-1852 | a run with one nonce used twice: a bid in two deals, a deal of another amount than its ask, without maturity, on two chains |
| Rewards.RewardedOnce | ccprocessor/processor.cpp:1313-1353 | live, every height up to the processed one is rewarded once, to its own signer, ascending |
| Rewards.ProcessedRises | ccprocessor/processor.cpp:2294-2330 | in every mode the processed height moves exactly when housekeeping is accepted and due, to the last height asked for, upward, below head minus the confirmations |
| Rewards.NextRewards | ccprocessor/processor.cpp:1313-1353 | live, with an honest reply, a step awards exactly the heights it moves over, ascending |
| Rewards.ProcessedConfirmed | ccprocessor/processor.cpp:2323-2330 | in every run with rising heads, live or replayed, the processed height stays confirmed |
| Rewards.ReplayRewards | ccprocessor/processor.cpp:1294-1312 | replayed, a batch request rewards nobody and a named block rewards its heights downward |
| Interest.CalcInterest | ccprocessor/processor.cpp:748-757 | the loop computes one rounded tick after another and nothing for non-positive ticks |
| Interest.CompoundBelowExact | ccprocessor/processor.cpp:748-757 | between the principal and the exact compound value |
| Interest.CompoundNearExact | ccprocessor/processor.cpp:748-757 | rounding loses less than one unit a tick, compounded |
| Interest.CompoundMonotone | ccprocessor/processor.cpp:748-757 | monotone in amount, ticks and rate |
| Interest.CompoundComposes | ccprocessor/processor.cpp:748-757 | charging m and then n ticks is charging m + n |
| Interest.ThresholdNeverFalls | ccprocessor/processor.cpp:2022-2031 | the amount that closes a deal never falls as the head grows and is at least the loan |
| Numerals.ParseShow | ccprocessor/processor.cpp:443-480 | a number the ledger writes reads back as itself, past the octal and hexadecimal prefixes |
| Numerals.ParseExactly | ccprocessor/processor.cpp:443-480 | a text is read iff all its characters are digits of the base, as the number they stand for by their place |
| Base64.EncodedSpells | ccprocessor/processor.cpp:617-642 | three bytes make four characters of the standard alphabet, one or two make one more than they are, and equals signs follow |
| Base64.EncodeBase64 | ccprocessor/processor.cpp:617-642 | the accumulator loops produce the text specified by a 32-bit wrapping register |
| Base64.DecodeBase64 | ccprocessor/processor.cpp:352-377 | the decoding loop, with its stop at padding and failure outside the alphabet |
| Base64.RoundTrip | ccprocessor/processor.cpp:339-377 | decoding undoes encoding for every byte vector under 32-bit wrap-around |
| Replay.FlushKeepsLookups | ccprocessor/processor.cpp:917-931 | flushing a block changes no lookup |
| Replay.PrepareExact | ccprocessor/processor.cpp:911-959 | what a delivered command sees is a full replay of everything before it |
| Replay.DeliverExact | ccprocessor/processor.cpp:891-966 | a delivery in order keeps the layers exact and sends the validator the writes of the full replay |
| Replay.RunExact | ccprocessor/processor.cpp:891-987 | incremental replay equals full replay over every orderly run, redelivery inside a block included |
| Replay.LateEntry | ccprocessor/processor.cpp:932-939 | entering a block late replays the start of the block left behind |
| Replay.AlikeEntryExact | ccprocessor/processor.cpp:932-939 | harmless when what the two blocks execute there does the same in every state |
| LedgerReplay.HistoryIsRun | ccprocessor/processor.cpp:917-987 | replaying a history that does not fail leaves the records of the ledger after its executed commands |
| LedgerReplay.RevalidatedLedger | ccprocessor/processor.cpp:891-987 | after any orderly run of deliveries the layers show the ledger with every recorded transaction up to the last delivered one run once |
| LateEntries.LateEntryExactly | ccprocessor/processor.cpp:932-939 | for published blocks a late entry shows the full replay iff neither block executes more there than its opening housekeeping |
| LateEntries.BusyEntry | ccprocessor/processor.cpp:932-939 | for any blocks, a start that executes anything but housekeeping makes a late entry go wrong |
| LateEntries.QuietEntry | ccprocessor/processor.cpp:932-939 | for any blocks, starts with the same housekeeping make it harmless |
| LateEntryCase.PaymentsMisplaced | ccprocessor/processor.cpp:932-939 | a recorded chain with two payments on which the delivered transaction does not see the full replay |
| Revalidation.Revalidator.GetState | ccprocessor/processor.cpp:1039-1067 | a lookup through the three layers is a lookup in their overlay |
| Revalidation.Revalidator.Filter | ccprocessor/processor.cpp:385-409 | lists exactly the existing records under the prefix, each once |
| Revalidation.Revalidator.Replay | ccprocessor/processor.cpp:879-889 | executes one recorded transaction, passing over incomplete ones |
| Revalidation.Revalidator.Run | ccprocessor/processor.cpp:867-877 | a command's writes move to the block's layer, or stay apart when it fails |
| Revalidation.Revalidator.CatchUp | ccprocessor/processor.cpp:911-931 | finishes the block left behind and replays and flushes every block in between |
| Revalidation.Revalidator.Receive | ccprocessor/processor.cpp:891-966 | one delivery, with a fresh command layer, is one step of the specified machine, failures and unknown ids included |
| Digest.CountLeadingZeroes | PoW/PoW/__init__.py:201-228 | the scan with its cascade of comparisons counts the leading zero bits |
| Digest.LeadingZeroesMeaning | PoW/PoW/__init__.py:196-228 | at least d zeroes iff the digest as a number is below 2^(8 len - d), for every length |
| Digest.WorkIsRarity | PoW/PoW/__init__.py:668-679 | two to the difficulty times the number of n-byte digests that meet it is the number of n-byte digests |
| Difficulty.AdjustedExactly | PoW/PoW/__init__.py:253-294 | over the window of recent mined blocks: one more iff they were fast, one less iff they were slow, within 0 and 255 |
| Difficulty.DifficultyValidator.GetElapsedTime | PoW/PoW/__init__.py:253-270 | time taken and expected for the window of recent mined blocks; missing ancestors are an error |
| Difficulty.OldestWindow | PoW/PoW/__init__.py:253-270 | the window: as many mined blocks as asked for, at least two, or up to the start of mining |
| Difficulty.DifficultyValidator.GetAdjustedDifficulty | PoW/PoW/__init__.py:272-294 | the due difficulty by the window of recent mined blocks, one up when fast and one down when slow, at tuning and adjustment heights |
| Difficulty.AdjustedMeaning | PoW/PoW/__init__.py:272-294 | moves by at most one, stays within 255, never rises with a later claim |
| Difficulty.DifficultyValidator.ValidateDifficulty | PoW/PoW/__init__.py:296-306 | accepts iff the difficulty is due, or the block came 1800 seconds after the previous one and before now |
| ForkChoice.ForkSumsOrderHeads | PoW/PoW/__init__.py:668-679 | work above any common ancestor differs exactly as total work does |
| ForkChoice.ForkResolver.GetBlockAtCurTip | PoW/PoW/__init__.py:638-650 | levels the higher head or finds the fork not mined or incomplete |
| ForkChoice.ForkResolver.VerifyDifficulties | PoW/PoW/__init__.py:652-666 | asks every block of the fork, newest first |
| ForkChoice.ForkResolver.ProcessFork | PoW/PoW/__init__.py:668-679 | the sum is the work of exactly the blocks above the ancestor |
| ForkChoice.ForkResolver.FindAncestor | PoW/PoW/__init__.py:713-744 | finds the highest common ancestor iff the fork down to it was mined |
| ForkChoice.ForkResolver.CompareForks | PoW/PoW/__init__.py:681-777 | adopts iff the new head starts mining, or is acceptable and heavier or equally heavy and faster; raises iff a head is not mined where it must be, an ancestor breaks the walk, a difficulty cannot be judged, or the heads are one |
| ForkChoice.ForkResolver.Weigh | PoW/PoW/__init__.py:752-777 | above the common ancestor: adopts iff acceptable and better, raises iff a difficulty cannot be judged or the fork is empty |
| ForkChoice.AdoptsExactly | PoW/PoW/__init__.py:681-777 | adopts iff not ahead of time and either mining begins, or every block of the fork is acceptable and it took more tries, two to each difficulty, or as many and less time a block |
| ForkErrors.RaisesExactly | PoW/PoW/__init__.py:681-777 | which comparisons raise, in terms of blocks and paths |
| ForkErrors.BreaksByPaths | PoW/PoW/__init__.py:638-744 | walking down from both heads raises iff a block at or above the lower height was not mined, or the current path ends, all mined, where the new one goes on |
| ForkErrors.SelfRaises | PoW/PoW/__init__.py:769-777 | comparing a mined head with itself raises unless its time lies ahead |
| ForkCycle.PaceGoesRound | PoW/PoW/__init__.py:752-777 | three equally heavy heads each of which is adopted over the next |
| ForkChoice.BothAbove | PoW/PoW/__init__.py:752-777 | in the tie-break of two heads both forks have positive length |
| ForkChoice.ChoiceIsAntisymmetric | PoW/PoW/__init__.py:681-777 | of two heads at most one is preferred over the other, whatever the clocks |
| ForkChoice.AdoptingKeepsWork | PoW/PoW/__init__.py:681-777 | adopting never lowers total work |
| Mining.Work | PoW/PoW/__init__.py:103-139 | over every script of commands: one nonce a round, the reports are exactly those of the nonces tried, and a stop is answered with the best of all nonces tried |
| Mining.RoundsMeaning | PoW/PoW/__init__.py:103-139 | the rounds end with the first command that ends the work, or with the commands |
| Mining.ReportedExactly | PoW/PoW/__init__.py:110-127 | a nonce is reported iff its digest has the zeroes asked for and more than any before, with the difficulty that makes it so |
| Mining.NoncesExactly | PoW/PoW/__init__.py:103-127 | a fresh nonce follows a record, the next one any other |
| Mining.HitsAreReported | PoW/PoW/__init__.py:110-127 | a tried nonce is reported iff it meets the threshold of its time |
| Mining.RecordsRise | PoW/PoW/__init__.py:110-127 | each report meets its difficulty, and each is above all that was reached before |
| Publishing.SplitJoin | PoW/PoW/__init__.py:470-482 | splitting at colons undoes joining |
| Publishing.UpdateConsensus | PoW/PoW/__init__.py:470-482 | a text is published iff the hash is of this start time, and it reads back as the hash's difficulty, nonce and time |
| Publishing.FieldsReturn | PoW/PoW/__init__.py:470-482 | the consensus text splits back into the fields it was built from |
| Publishing.BlockVerifier.VerifyBlock | PoW/PoW/__init__.py:590-613 | accepts iff the digest spells a number below two to its bits less the claimed difficulty, and that is due or the block late enough; raises exactly for a missing or unreadable field or an undecidable difficulty |
| Publishing.HashVerifies | PoW/PoW/__init__.py:382-396 | whatever a solver started with the due difficulty reports is verified once published |
| Publishing.StoppedVerifies | PoW/PoW/__init__.py:406-433 | a block published from a stopped solver is verified iff its digest is small enough for what it claims, and that is due or the previous block was old enough |
| Publishing.StopIsGood | PoW/PoW/__init__.py:406-433 | what a solver answers to a stop has such a digest |
| Publishing.StoppedRefused | PoW/PoW/__init__.py:406-433 | a stopped block of less difficulty that is refused at any later time |
| ForkDiffs.BlockValidator.BuildToCommonHeight | PoW/hotfix/block_validator.py:399-439 | walks to the common height along the path, or marks exactly a path that never meets the other |
| ForkDiffs.BlockValidator.ExtendToCommonAncestor | PoW/hotfix/block_validator.py:441-471 | extends both parts to the highest common ancestor, or aborts because there is none, having marked the new path down to where it stopped |
| ForkDiffs.BlockValidator.Diff | PoW/hotfix/block_validator.py:535-555 | the exact fork diff, found iff the paths meet; on an abort the walked path is marked, which never meets the other |
| ForkDiffs.SwitchTurns | PoW/hotfix/block_validator.py:535-555 | rolling back one part and applying the other turns one ancestor path into the other, as a list and as a set |
| BlockTree.MeetIsHighest | PoW/hotfix/block_validator.py:399-471 | the meeting point is the highest common ancestor and exists iff the paths share a block |
| BlockTree.ForkAtMeet | PoW/hotfix/block_validator.py:399-471 | both paths split at the meeting point and share nothing above it |
| ChainControl.ChainController.StartVerification | PoW/hotfix/block_validator.py:520-555 | a worker's start is one step: it takes the head and its fork diff |
| ChainControl.ChainController.LookAtNext | PoW/hotfix/block_validator.py:311-316 | a worker's look at the next status is one step: valid, invalid, to be validated, or marked after an invalid one |
| ChainControl.ChainController.WriteVerdict | PoW/hotfix/block_validator.py:331-386 | writing the verdict is another: valid unless the head has moved, invalid, or left open by an exception |
| ChainControl.ChainController.DecideFork | PoW/hotfix/block_validator.py:557-618 | a worker commits only a fork that is all valid and preferred over its own head |
| JournalProgress.VerdictsWritten | PoW/hotfix/block_validator.py:311-386 | which status a worker's step writes, and that it writes no other |
| JournalProgress.HopeExactly | PoW/hotfix/block_validator.py:557-618 | a worker gives up in exactly the steps that speak against its fork |
| JournalProgress.RefusedForCause | PoW/hotfix/block_validator.py:557-618 | in every run a worker that will not commit has met one of: no common ancestor, an invalid block, an exception, a moved head, a head not worse |
| JournalVerdicts.LookFair | PoW/hotfix/block_validator.py:557-574 | a look that writes over no valid verdict keeps the verdict invariant |
| JournalVerdicts.VerdictFair | PoW/hotfix/block_validator.py:331-386 | a verdict written over no opposite one keeps the verdict invariant |
| JournalVerdicts.LostExactly | PoW/hotfix/block_validator.py:331-386 | a step loses a verdict iff it writes over the opposite one |
| JournalSolo.SoloRun | PoW/hotfix/block_validator.py:159-160 | with one worker thread no verdict is ever written over, exceptions included: committed blocks stay valid |
| JournalVerdicts.StartFair | PoW/hotfix/block_validator.py:399-471 | blocks marked on an abort were never valid |
| JournalRace.CommittedTurnsInvalid | PoW/hotfix/block_validator.py:311-386 | a run from the initial state with at most two busy workers and no exception makes a committed valid block invalid |
| ChainControl.ChainController.OnBlockReceived | PoW/hotfix/chain.py:374-416 | a received block is queued, filed under its predecessor or ignored, in one step; the invariant is kept if it arrives after its predecessor |
| ChainControl.ChainController.OnBlockValidated | PoW/hotfix/chain.py:254-372 | the callback is one step of the journal in each of its branches, and follows up the block and those that wait for it |
| JournalProgress.CallbackFollows | PoW/hotfix/chain.py:254-372 | after a callback the block is the head, verified again with its waiting list, refused, or left to those that waited for it |
| JournalProgress.NeverForgotten | PoW/hotfix/chain.py:209-411 | over every run a received block is queued until it becomes the head, is compared and refused, is overtaken with others waiting, or has an invalid ancestor |
| ChainControl.ChainController.DrainDescendants | PoW/hotfix/chain.py:335-356 | the worklist ends, having removed and marked exactly the descendants of the invalid block |
| JournalQueues.PendingBlocks | PoW/hotfix/chain.py:374-411 | pending is the disjoint union of processed and waiting blocks, each waiting only in its predecessor's list |
| JournalQueues.WaitingEnds | PoW/hotfix/chain.py:374-411 | from every waiting block predecessors lead to one being processed |
| JournalQueues.DrainKeepsQueues | PoW/hotfix/chain.py:335-356 | everything above an invalid block was waiting, and dropping it keeps the queues |
| JournalQueues.NextKeepsQueues | PoW/hotfix/chain.py:209-411 | every step keeps the queues |
| JournalSafety.CallbackSane | PoW/hotfix/chain.py:254-372 | a callback leaves the store the path of the head |
| JournalSafety.NextSane | PoW/hotfix/chain.py:209-411 | every step keeps store and workers right |
| JournalSafety.HeadMoves | PoW/hotfix/chain.py:264-330 | the head moves only from the head compared against, to the block, never to less work |
| JournalVerdicts.CallbackFair | PoW/hotfix/chain.py:264-366 | a callback keeps the verdict invariant, and no verdict changes: nothing above an invalid block was valid |
| JournalVerdicts.RunSane | PoW/hotfix/chain.py:209-411 | over every interleaving: store is the path of the head, queues kept, total work never falls |
| JournalVerdicts.RunFair | PoW/hotfix/chain.py:264-366 | over every interleaving in which no verdict is written over: committed blocks are valid and verdicts stand |
| JournalVerdicts.RunStandsExactly | PoW/hotfix/chain.py:264-366 | all verdicts of a run stand iff none is written over |
| BlockCaching.BlockCache.Get | PoW/hotfix/block_cache.py:69-80 | finds what cache or store has, caching stored blocks, and stays closed |
| BlockCaching.BlockCache.Set | PoW/hotfix/block_cache.py:82-91 | inserts, counts and purges when due; stays closed when the predecessor is around and no uncommitted entry is overwritten |
| BlockCaching.BlockCache.Delete | PoW/hotfix/block_cache.py:93-98 | removes and uncounts an entry; stays closed when it is childless or committed |
| BlockCaching.BlockCache.AddChain | PoW/hotfix/block_cache.py:115-131 | adds the missing blocks of a chain by height; stays closed when every block joins |
| BlockCaching.BlockCache.PurgeExpired | PoW/hotfix/block_cache.py:146-178 | keeps exactly the fresh and the referenced uncommitted entries, uncounts the others, and stays closed |
| BlockCaching.InsertKeeps | PoW/hotfix/block_cache.py:82-91 | counts cover cached children after an insert |
| BlockCaching.RemoveKeeps | PoW/hotfix/block_cache.py:93-98 | and after a removal |
| BlockCaching.PurgeKeeps | PoW/hotfix/block_cache.py:146-178 | and after a purge, which takes no predecessor of an uncommitted cached block |
| BlockCaching.InsertExact | PoW/hotfix/block_cache.py:82-91 | counts of uncommitted entries stay exact after an insert |
| BlockCaching.RemoveExact | PoW/hotfix/block_cache.py:93-98 | and after a removal |
| BlockCaching.PurgeExact | PoW/hotfix/block_cache.py:146-178 | and after a purge |
| BlockCaching.PurgeExactly | PoW/hotfix/block_cache.py:146-178 | a purge keeps an uncommitted entry iff it is fresh or has cached children, a committed one iff it is fresh |
| BlockCaching.ByHeightSorted | PoW/hotfix/block_cache.py:115-131 | the sort puts the same blocks in ascending order |
| BlockCaching.CommitKeeps | PoW/hotfix/block_cache.py:69-98 | a growing store keeps the cache closed |
| BlockCaching.ForgetExactly | PoW/hotfix/block_cache.py:69-98 | a reorganisation, some blocks out and others in, keeps the cache closed iff each block taken out counts its cached successors and is cached if it has any |
| BlockCaching.ReorganisationBreaks | PoW/hotfix/block_cache.py:146-178 | a purge that is allowed, then a reorganisation, leave a cached block without its predecessor |
| Completion.Completer.CompleteBlock | PoW/hotfix/completer.py:89-201 | fills in a block iff its predecessor is known and its batches can be found; otherwise it is dropped as malformed or filed under something it needs |
| Completion.Completer.FinalizeBatchList | PoW/hotfix/completer.py:203-213 | the header's batches in the header's order |
| Completion.Completer.RequestMissing | PoW/hotfix/completer.py:140-158 | requests and files under every missing batch of the header up to the first one already requested |
| Completion.Completer.ProcessIncompleteBlocks | PoW/hotfix/completer.py:260-276 | the drain ends with nothing filed under what has arrived and no received block lost |
| Completion.Completer.AddBlock | PoW/hotfix/completer.py:287-294 | a complete block is delivered at once; afterwards no received block is lost and none that could be delivered waits |
| Completion.Completer.AddBatch | PoW/hotfix/completer.py:296-313 | afterwards no received block is lost and none that could be delivered waits |
| Completion.NothingLeftReady | PoW/hotfix/completer.py:260-276 | where nothing is filed under what has arrived, no block that waits could be delivered |
| Completion.DeliverOne | PoW/hotfix/completer.py:260-294 | deliveries are complete, once each, after a known predecessor |
| Completion.OnceOnly | PoW/hotfix/completer.py:260-294 | no block is delivered twice |
| Completion.ParentsFirst | PoW/hotfix/completer.py:260-294 | a predecessor that the chain did not know is delivered before its successors |
| Completion.KnownParentMayFollow | PoW/hotfix/completer.py:260-294 | one that it knew may follow |
| RewardList.RewardListRequest.FindFirst | PoW/hotfix/client_handlers.py:834-852 | jumps to the store iff the path leaves the cache, else reaches the ancestor |
| RewardList.RewardListRequest.Collect | PoW/hotfix/client_handlers.py:853-862 | collects the path downwards, one block a height |
| RewardList.RewardListRequest.Respond | PoW/hotfix/client_handlers.py:777-869 | which requests fail and how; the answer is right iff the store agrees at the first height or is not asked |
| RewardList.OneAnswer | PoW/hotfix/client_handlers.py:777-869 | there is one right answer |
| RewardList.WrongOnlyWhenDeep | PoW/hotfix/client_handlers.py:834-852 | when the store is the path of its head, an answer is wrong only past the depth limit |
| RewardFork.DeepForkMisleads | PoW/hotfix/client_handlers.py:834-862 | a store that is a path and a deep fork whose answer is wrong |
| RewardReplies.AnswerIsHonest | PoW/hotfix/client_handlers.py:777-869 | a right answer is the honest reply the ledger's rewards rest on |

## Left out

- Protobuf encoding, JSON and CBOR parsing, hashing, keys and signatures: records, parsed commands and ids stand for them.
- The version gate on the second block, settings threads, the exit timer and logging of the processor.
- The floating-point power in the award: the reward fraction of a period is an input.
- Loading the transition file: the model starts from recorded blocks and from positions that lie inside them.
- Application.Applicator.Housekeeping: the stray write of the fee sweep (line 2416) goes to a key that nothing reads and is not stored.
- Application.Applicator.SweepFees: the same stray write.
- Application.Applicator.Apply: the version gate (lines 770-775) and unknown command names, both of which reject.
- Losses.SweepsSucceed: assumes that the validator does not refuse the stray write of the fee sweep, which goes to a key outside the transaction's outputs.
- LateEntries.LateEntryExactly: for blocks with more housekeeping than the opening command the condition is split into `BusyEntry` and `QuietEntry`; starts that execute different housekeeping commands and nothing else are covered by neither.
- Genesis handling of the chain controller (`_set_genesis`), its receipts, observers and metrics.
- The inside of `validate_block`: permissions, consensus, on-chain rules and scheduling are one verdict per check.
- Receive steps of the journal: runs are those in which blocks arrive after their predecessors, as the completer delivers them, and numbered one above them.
- Timed expiry of the completer's caches, dependencies between batches (`_complete_batch`) and gossip messages.
- The null block entry of the block cache, which has no predecessor and is never purged early.
- Process, pipe and thread mechanics of the solver, and the publisher's polling loop in `check_publish_block`.
- Publishing.BlockVerifier.VerifyBlock: numbers are read as plain decimal digits, without the signs, spaces and underscores Python accepts; how times are written and read is a parameter.
- The other client request handlers, the gateway, the command line and the generated code.
