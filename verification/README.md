# Federator relay: a verified model

A federator is a process that scans an origin chain for `Cross` events and votes for them on the
destination chain. It works in runs; each run continues from a block height kept in a file, pages the
block range, skips what it has already done and remembers, in a second file, the votes that were
refused. This project models that protocol and proves what it guarantees over all histories of runs:
chain heights may rise and fall, any call may fail, confirmations and limits may change, other
federators may vote, and the process may be killed at any call.

`dafny verify dfyconfig.toml` checks everything. No code of the federator is run.

## How the model is built

- `Network` fixes what the outside answers. Time is counted in calls: a `World` gives the answer of
  every call at every tick, and nothing relates two ticks unless an assumption is named. A statement
  about all worlds is a statement about all environments. A tick is one call whose answer the program
  uses; the preparatory calls before it (contract lookups, `mkdir`, building call data) share its fate.
- `Relay` defines the protocol as functions of a world and a state: a vote, an event, a page, a scan,
  an attempt, a run, a history. The state holds the two files, the memo of the chain id, and a trace
  of everything the process did.
- `FederatorErc20`, `FederatorNft` and `HeartbeatReading` are the step-by-step programs: classes whose
  fields are the files and memos, with the source's loops and branches. Each method is proved to have
  exactly the effect of its function in `Relay`, so the theorems about histories are about them.
- `Paging` is the page arithmetic; `RelaySafety`, `RelayJudgement`, `RelayCoverage`, `RelayProgress`,
  `RelayRising`, `RelayCompletion`, `RelayOutcome`, `RelayCalls`, `RelayRepeat`, `RelayAgain`,
  `RelayTiers`, `RelayRuns` and `Quorum` hold the theorems about attempts, runs and histories.
  `RelayCausality` shows that a history depends only on the answers given so far, and
  `RelayExamples` holds the concrete worlds used to show that a property fails.
- `AllowTokens`, `HashChain`, `GasPrice`, `Scheduling` and `Retrying` are the smaller components.

## Assumptions

Each is a predicate that appears in the `requires` of the lemmas that need it, and nowhere else.

- `Network.Faithful`: `getPastEvents` answers with exactly the events the node holds for the range.
- `Network.Final`: an event buried `depth` blocks deep when the height is read stays as it is. The
  depths the programs wait for are at least that (`RelayCoverage.WaitsLongEnough`).
- `Network.Remembers`, `Network.VisibleFrom`: the destination chain does not forget votes and
  executions, and a mined vote shows from then on. Only for the results about running again.
- `Quorum`: the contract executes a crossing only when a strict majority of the members has voted
  for it (README.md:48 and bridge/test/Federation_test.js:555-632).
- `RelayRepeat.Unchanged`, `RelayRuns.Steady`: the world stands still. Only for the results about a
  second run.
- `RelayCompletion.Healthy`: every call is answered, no node is syncing, the federator is a member, every
  token is mapped or allowed, every send is settled. Only for the result on when a run completes.

Some things are fixed by the types of the model rather than by a predicate:

- The progress file, when it can be read, holds a decimal number; both files are written atomically.
- The id of an event does not depend on the tick: a change of the federation contract that changes the
  ids of old events is not modelled (`World.txId`).
- The file of refused votes can always be read back: a check for its existence that wrongly says no,
  after which the source would overwrite it, is not modelled.

## What the code does not do

Some properties one would expect fail in certain cases. The model follows the code, and the exact
condition is proved.

- **An event put off is not always above the persisted height.** The second pass starts at `toBlock`,
  which the first pass may just have dealt with and saved; a large amount there is looked at again and
  put off. It also rescans persisted blocks when the target has fallen or the progress file could not be
  read. See
  `RelayTiers.PutOffIsAboveProgressExactlyWhen` and `RelayTiers.PutOffAtProgressHappens`. No event is
  lost by it (`RelayCoverage.NoEventLost`).
- **One event of a token that is neither mapped nor allowed stops the ERC20 relay.** As long as it stays
  so, no history saves a height at or above its block (`RelayCompletion.BarredEventHoldsProgress`). In a
  healthy world a run completes exactly when some block is due
  (`RelayCompletion.HealthyRunCompletesExactlyWhen`).
- **Saved heights rise only while the progress file can be read.** Any failure to read it counts as a
  missing file, and the scan goes back to the configured block. `RelayExamples.SavedHeightFalls` is a
  run that replaces 5000 by 1000, `RelayExamples.SavesFallInHistory` a history that saves 1000, 2000 and
  1000. `RelayRising.RisesExactlyWhen` gives the condition over histories of all three programs,
  `RelayProgress.FirstSaveRisesExactlyWhen` and `RelayProgress.FirstSaveOfPassRisesExactlyWhen` for one
  run.
- **A single pending block is not scanned** when no second pass runs: a range of one block gives no
  page. `RelayProgress.NoGapBetweenPasses` shows that this is the only block left out, and
  `RelayExamples.LoneBlockIsNotScanned` is a run that completes and asks for nothing while an event
  waits. See also `RelayProgress.LagsByAtMostOne`.
- **A vote may be sent twice** when the first one was lost: the process died or threw inside the send,
  the refusal could not be written down, or the chain did not show the vote. Those are all the cases
  (`RelaySafety.HistoryIsSound`), and each of them happens (`RelayAgain.LostVoteIsSentAgain`). After a
  vote the environment can go on so that the next run sends it again exactly when the id is not on file
  as refused (`RelayAgain.SentAgainExactlyWhen`); on a chain that forgets nothing and shows what it has
  mined, exactly when in addition the id was never shown and no vote for it was mined
  (`RelayAgain.SentAgainOnReliableChainExactlyWhen`). In both cases no other event has to disappear, the
  chain stays as final as it was, and the ERC20 federator reads its progress file.
- **The depth rule needs `small <= large` and `medium <= large`**, and nothing else of the order of the
  confirmations: that is exactly when all ERC20 votes of all histories are deep enough
  (`RelayTiers.VotesAreDeepExactlyWhenOrdered`). Without it the first pass of the first run votes for
  some event too early (`RelayTiers.UnorderedVotesShallow`). The newer AllowTokens contracts enforce the
  order (bridge/contracts/AllowTokens/AllowTokens.sol:204-205).
- **`stop` does not end the polling while a run is in flight**
  (`Scheduling.StopIsFinalExactlyWhen`).
- **The gas price is capped only above 25 gwei** (`GasPrice.PriceIsCappedExactlyWhen`).
- The federator's documentation calls the progress file `latestBlock.txt` (federator/README.md); the
  code's name is `lastBlock.txt`. The documentation of `retry` calls `retriesMax` a number of retries;
  it is the number of calls (federator/src/lib/utils.js:10, 23-31).

## Model

| member | source | states |
|---|---|---|
| `RelaySafety.HistoryIsSound` | federator/src/lib/Federator.js:59-486 | In every history of every program each vote sent is for a reported event with its own id, by a reported member, under reported height, confirmations and limits of the right token, after asking that the id was neither processed nor voted, and deep enough; an id is voted twice only if the first vote was lost; every other trace entry is true too: a page was answered, a saved height ends a page fetched before it in a pass that saves, a put-off event was reported and so were the limits its tier follows from, what was found on chain or on file was there when asked, and a token or a membership that stopped the run was refused by the contract |
| `RelayJudgement.VotesAreJudgedByTheirAttempt` | federator/src/lib/Federator.js:63-143 | In every history, in any world, each vote was sent in an attempt that belongs to it: the height is the one that attempt read first, confirmations or chain id are the ones it then asked for, the event came with a page that attempt has on record as requested, after which it was found a member, the limits and the state of the id were asked for just before the send, the id was not on file; ERC20 votes by tiers, the NFT federator by one depth, the heartbeat reader never |
| `RelayJudgement.AttemptVotesAreItsOwn` | federator/src/lib/FederatorNFT.ts:92-144 | The same of one attempt of any of the three programs, however it ends |
| `RelaySafety.AttemptIsSound` | federator/src/lib/Federator.js:63-143 | One attempt of any of the three programs keeps that invariant wherever it is cut short |
| `RelaySafety.PagesAreSound` | federator/src/lib/Federator.js:174-202 | So does any number of pages, given that they lie at or below the ceiling of their scan |
| `RelaySafety.ProcessIsSound` | federator/src/lib/Federator.js:227-372 | So does one event: in either pass, and in the NFT pass, an event at or below the ceiling that is not put off is voted only at sufficient depth |
| `RelaySafety.VoteIsSound` | federator/src/lib/Federator.js:398-486 | So does one vote: a refused vote is on file unless the write was interrupted, and an id on file is not sent |
| `RelayTiers.EveryVoteIsDeepEnough` | federator/src/lib/Federator.js:288-311 | Over any history each ERC20 vote is buried as deep as the tier of its amount requires (large, medium or small, by its limits), on every page of both passes, when small and medium are at most large, and each NFT vote as deep as its chain requires; both by what the attempt that sent the vote had read |
| `RelayTiers.VotesAreDeepExactlyWhenOrdered` | federator/src/lib/Federator.js:92-141 | Small and medium at most large is exactly the condition on the confirmations under which every vote of every ERC20 history, in every world that reports them, is that deep |
| `RelayTiers.UnorderedVotesShallow` | federator/src/lib/Federator.js:92-94 | For every confirmations that break that order there is a world with an event at a positive block and height which the first pass of the first run fetches and votes for, less deep than its tier requires |
| `RelayTiers.V0HasOneTier` | federator/src/contracts/IAllowTokensV0.ts:19-46 | Under the oldest contract no history ever makes a second pass, and every vote has the single fixed depth |
| `RelayTiers.PutOffIsAboveProgressExactlyWhen` | federator/src/lib/Federator.js:132-141 | What a completed run puts off is above the height it leaves persisted, except at `toBlock` after a first pass, or, when the first pass had no page, at blocks persisted before; each case exactly, whether or not the file could be read |
| `RelayTiers.PutOffAtProgressHappens` | federator/src/lib/Federator.js:288-298 | A first run, in a world at height 10 with confirmations 1, 2 and 3, that completes and puts off an event in the block it has just persisted |
| `RelayCoverage.NoEventLost` | federator/src/lib/Federator.js:107-141 | After any history of ERC20 or NFT runs, every event above the starting height and at or below the persisted one was found processed or voted when the process asked, or our vote for it was mined, or it is on file as refused |
| `RelayCoverage.PagesClear` | federator/src/lib/Federator.js:174-202 | A scan that is cut short anywhere has saved only heights whose events are all dealt with |
| `RelayCoverage.EachHandled` | federator/src/lib/Federator.js:227-372 | When the events of a page go through, each was dealt with, or was put off by the second pass; the NFT pass puts off none |
| `RelayProgress.CompletedRunFetches` | federator/src/lib/Federator.js:125-141 | A completed ERC20 run requests exactly the pages of `base + 1 .. toBlock`, then those of `toBlock .. newToBlock`, in order |
| `RelayProgress.NoGapBetweenPasses` | federator/src/lib/Federator.js:132-141 | A due block is requested by some pass of a completed run exactly unless it is a lone pending block without second pass; both passes request a block exactly when it is `toBlock` and both ran |
| `RelayExamples.LoneBlockIsNotScanned` | federator/src/lib/Federator.js:164-166 | A run that completes without asking for the one block that is due, in which an event waits |
| `RelayProgress.LagsByAtMostOne` | federator/src/lib/Federator.js:98-122 | After a run that completed or found nothing to do, the deep target is at most one above the persisted height, and equal to it when more than one block was pending |
| `RelayProgress.ProgressOnlyRises` | federator/src/lib/Federator.js:198-202 | While the file can be read, every height saved in any history of any of the programs exceeds all earlier ones and the file never goes back |
| `RelayProgress.FirstSaveRisesExactlyWhen` | federator/src/lib/Federator.js:107-116 | The first height an ERC20 run saves is above the old one exactly when the file was read or the first page counted from the configured block ends above it |
| `RelayProgress.FirstSaveOfPassRisesExactlyWhen` | federator/src/lib/FederatorNFT.ts:158-170 | The same of the single pass of the NFT federator and the heartbeat reader |
| `RelayExamples.SavedHeightFalls` | federator/src/lib/Federator.js:108-113 | A run that cannot read a file holding 5000 and is killed after its first page leaves it holding 1000 |
| `RelayExamples.SavesFallInHistory` | federator/src/lib/Federator.js:108-113 | A history of two runs that saves 1000, 2000 and 1000 |
| `RelayRising.RisesExactlyWhen` | federator/src/lib/Federator.js:107-122 | Over any history of any of the programs the saved heights strictly rise exactly when each attempt that saves anything could read its file, had nothing saved before it, or started with a page that ends above what the file held |
| `RelayCompletion.BarredEventHoldsProgress` | federator/src/lib/Federator.js:256-268 | While an event's token is neither mapped nor allowed, no history saves a height at or above its block |
| `RelayCompletion.BarredRunDoesNotComplete` | federator/src/lib/Federator.js:256-268 | And no run whose first pass has pages up to that block completes |
| `RelayCompletion.HealthyRunCompletesExactlyWhen` | federator/src/lib/Federator.js:92-143 | When all calls are answered, nodes are in sync, the federator is a member, tokens are mapped or allowed and sends settle, a run of any program (of the heartbeat reader, on an RSK chain) completes exactly when a target lies above the block it continues from, and is otherwise idle |
| `RelayProgress.EverySaveIsAboveStart` | federator/src/lib/Federator.js:498-502 | Whether or not the file can be read, every height saved in any history of any of the programs lies above the configured block, so the guard against a zero height never decides anything |
| `RelayProgress.CompletedPassFetches` | federator/src/lib/Heartbeat.js:103-131 | The NFT federator and the heartbeat reader request and save exactly the pages of their range by the same rule; none when one block is pending |
| `RelayProgress.ScanProgress` | federator/src/lib/Federator.js:168-202 | However a scan ends, it has requested a prefix of its pages, saved all of those but possibly the last, and the file holds the last end saved |
| `RelayRepeat.AtMostOneVote` | federator/src/lib/Federator.js:332-366 | Over any history in which no vote is lost each id is voted at most once |
| `RelayAgain.LostVoteIsSentAgain` | federator/src/lib/Federator.js:444-476 | For each of the four ways to lose a vote there is a history of two runs in which the first vote is lost that way and a second follows |
| `RelayAgain.SentAgainExactlyWhen` | federator/src/lib/Federator.js:421-438 | After any history, the world can go on so that the next run sends a vote again exactly when its id is not on file as refused; and then it can without another event disappearing, with the chain as final as before, and for ERC20 with a readable file |
| `RelayAgain.SentAgainOnReliableChainExactlyWhen` | federator/src/lib/Federator.js:332-366 | If the chain forgets nothing and shows what it mined, exactly when moreover the id was processed or voted at no tick so far and no vote for it was mined; again with everything else going on as before |
| `RelayAgain.ClosedForGood` | federator/src/lib/Federator.js:332-438 | An id on file, or shown by the chain for ever, is sent by no later run |
| `RelayAgain.CastSendsExactlyWhen` | federator/src/lib/Federator.js:332-449 | Offered an event, the program sends exactly when the id is not on file and was neither processed nor voted when asked, and the four calls up to the send are answered |
| `RelayCausality.HistoryIsCausal` | federator/src/lib/Federator.js:59-155 | Two worlds that agree up to the last tick of a history have the same history |
| `RelayRepeat.SecondRunDoesNothing` | federator/src/lib/Federator.js:109-141 | After a completed ERC20 run, a run in an unchanged world sends no vote and leaves both files as they are, even if it is cut short |
| `RelayRuns.SecondRunOfOnePassDoesNothing` | federator/src/lib/FederatorNFT.ts:134-144 | So does a run of the NFT federator or the heartbeat reader after a completed one at the same height |
| `RelayRepeat.RecentEventsAreDealtWith` | federator/src/lib/Federator.js:288-311 | In a world that stands still, a completed run leaves every event between the two targets that is not large and as deep as its tier requires voted on the chain, executed, or on file as refused |
| `RelayRuns.RunEndsWithFirstGoodAttempt` | federator/src/lib/FederatorNFT.ts:90-155 | A run is its first attempt that does not throw, each attempt continuing from the files of the one before, or an exit after as many throws as allowed |
| `RelayOutcome.AttemptEndsExactlyAsTold` | federator/src/lib/Federator.js:63-155 | All calls of an attempt but the last are answered, and the last one decides: it throws exactly when that call failed or told it that it is no member, that a token is not allowed or that the send threw, is killed exactly when the process died in it, and returns for a syncing node exactly when told so |
| `RelayOutcome.RunExitsExactlyWhen` | federator/src/lib/FederatorNFT.ts:90-155 | A run exits exactly when one ERC20 attempt, or three attempts of the other programs, threw one after the other |
| `RelayOutcome.RetriedRunCompletes` | federator/src/lib/Heartbeat.js:65-147 | The NFT federator and the heartbeat reader complete after up to two attempts that threw, if the world is healthy by then and blocks are due |
| `RelayOutcome.SyncingRunReturns` | federator/src/lib/Federator.js:67-86 | A run that is told that a node is syncing returns without retry or exit, with both files as they were and its chain id remembered |
| `RelayOutcome.SyncingAttemptReturns` | federator/src/lib/FederatorNFT.ts:93-117 | So does an attempt, in exactly that state |
| `RelayOutcome.HeartbeatRunsOnlyOnRsk` | federator/src/lib/utils.js:145-151 | The heartbeat reader exits without an attempt exactly off the chains 0, 5777, 30, 31 and 33 |
| `RelayOutcome.RestartForgetsExactlyWhen` | federator/src/lib/FederatorNFT.ts:90-155 | A process that exited or died starts again with its files and without its memo of the chain id; one that returned keeps it |
| `RelayCalls.CompletedAttemptTakes` | federator/src/lib/Federator.js:63-143 | A completed attempt has made exactly the calls its trace entries stand for and a fixed number to set out, and each was answered, down to the metric after a vote |
| `RelayCalls.IdleAttemptTakes` | federator/src/lib/Federator.js:92-122 | An attempt with nothing to do has looked at the progress file only if some target is positive |
| `RelayRuns.NftNeverSkips` | federator/src/lib/FederatorNFT.ts:45-69 | The branch that skips an NFT event as not deep enough is never taken in any history, and each vote of the NFT federator is for an event above the configured block and as deep as the chain its node reported requires: 240, 120, 10 or 2 blocks on the chains 1, 30, 42 and 31 |
| `RelayRuns.SyncingRunsDoNothing` | federator/src/lib/Federator.js:67-86 | A run whose attempts are each told, when they ask, that a node is syncing sends no vote and changes no file |
| `Quorum.ExecutedCrossingIsReal` | README.md:48 | If at most half of the federators run something else, each crossing with a strict majority of votes is a justified vote of some honest federator for a real event, judged by the rule of its program on what the attempt that sent it had read |
| `Paging.PagePartition` | federator/src/lib/Federator.js:164-202 | The pages are contiguous, start and end where the range does, have 1000 blocks each but the last, which has 2 to 1001; an empty or one-block range has none |
| `Paging.BlockInExactlyOnePage` | federator/src/lib/FederatorNFT.ts:177-198 | A block is in some page exactly when it is in a range of at least two blocks, and never in two |
| `FederatorErc20.Federator.Run` | federator/src/lib/Federator.js:59-155 | The program's run, one attempt and then exit, has exactly the effect the theorems are about |
| `FederatorErc20.Federator.TwoPasses` | federator/src/lib/Federator.js:92-143 | So do the choice of the starting block, the early returns and the two passes |
| `FederatorErc20.Federator.GetLogsAndProcess` | federator/src/lib/Federator.js:157-203 | The page loop with its running block equals the fold over `Paging.Pages` |
| `FederatorErc20.Federator.ProcessLogs` | federator/src/lib/Federator.js:205-378 | The event loop equals the recursion over the events, after the membership check |
| `FederatorErc20.Federator.ProcessLog` | federator/src/lib/Federator.js:227-372 | One event: side token, limits, the two reasons to put it off, then the vote |
| `FederatorErc20.Federator.VoteTransaction` | federator/src/lib/Federator.js:380-486 | One vote: the reverted file is read first and written after a refusal |
| `FederatorErc20.Federator.SaveProgress` | federator/src/lib/Federator.js:498-502 | A zero changes nothing; any other height is on file and on record when the call finishes, and when it is cut short the file is as before |
| `FederatorNft.FederatorNFT.Run` | federator/src/lib/FederatorNFT.ts:90-156 | Up to three attempts, with exactly the effect the theorems are about |
| `FederatorNft.FederatorNFT.GetLogsAndProcess` | federator/src/lib/FederatorNFT.ts:172-199 | The second copy of the page loop equals the same fold |
| `FederatorNft.FederatorNFT.GetNftConfirmationsForCurrentChainId` | federator/src/lib/FederatorNFT.ts:45-69 | 240, 120, 10 and 2 on the chains 1, 30, 42 and 31 and none elsewhere; the chain id is asked for once per process |
| `FederatorNft.FederatorNFT.VoteTransaction` | federator/src/lib/FederatorNFT.ts:336-388 | The vote with the reverted file, as in the ERC20 federator |
| `HeartbeatReading.Heartbeat.ReadLogs` | federator/src/lib/Heartbeat.js:65-147 | Three attempts, only on an RSK chain, with exactly the effect the theorems are about |
| `HeartbeatReading.Heartbeat.ReadPages` | federator/src/lib/Heartbeat.js:103-132 | The third copy of the page loop, without a guard, equals the same fold |
| `AllowTokens.CacheIsTransparentExactlyWhen` | federator/src/contracts/IAllowTokensV2.ts:60-78 | Cached calls return what direct calls would exactly when the contract's answer for a token is fixed once it allows the token |
| `AllowTokens.CacheHoldsFirstAllowed` | federator/src/contracts/IAllowTokensV1.ts:55-73 | The cache holds for each token the first answer that allowed it and nothing else, so a token allowed later is picked up |
| `AllowTokens.LimitsCache.GetLimits` | federator/src/contracts/IAllowTokensV2.ts:60-78 | One call returns the cached entry or the contract's answer, and stores only an allowing answer |
| `AllowTokens.V0GetConfirmations` | federator/src/contracts/IAllowTokensV0.ts:19-38 | The successive assignments give one depth for all three tiers: 240, 120, 10 and 10 on the chains 1, 30, 31 and 42 and none elsewhere |
| `AllowTokens.V0EveryAmountIsLarge` | federator/src/contracts/IAllowTokensV0.ts:40-46 | Under the oldest contract every token is allowed and every amount counts as large |
| `HashChain.SplitRoundTripsExactlyWhen` | federator/src/lib/utils.js:114-129 | Folding the split from the first kept node rebuilds every kept node, and so the root hash, exactly when each node's hash occurs in the next; for any hash function |
| `HashChain.EntriesAre` | federator/src/lib/utils.js:114-129 | The first entries are bare; every other node is cut around the first place of the hash before it, each part with 0x in front; what happens to a node without that hash is stated too |
| `HashChain.KeptExactlyWhen` | federator/src/lib/utils.js:107-112 | A node is kept exactly when it is the last or does not occur in its successor |
| `HashChain.SplitsExactlyWhen` | federator/src/lib/utils.js:114-129 | There is a split exactly when there are nodes and each has a hash |
| `HashChain.NothingIsLost` | federator/src/lib/utils.js:107-112 | Every node, however long the run of drops it is in, occurs in the next kept node |
| `HashChain.KeptIsASubsequence` | federator/src/lib/utils.js:107-112 | The kept nodes are input nodes in order and include the last |
| `HashChain.CalculatePrefixesSuffixes` | federator/src/lib/utils.js:98-130 | The program strips the nodes in place and returns the split of the kept ones, or throws when there is none or one has no hash |
| `GasPrice.PriceIsCappedExactlyWhen` | federator/src/lib/TransactionSender.js:54-98 | No oracle reply exceeds the cap exactly when the node's price and a half is above 25 gwei |
| `GasPrice.PriceIs` | federator/src/lib/TransactionSender.js:54-98 | What is paid on the main net, case by case on what node and oracle say: the fast price and 1.3 percent rounded up, the proposed price and 5 gwei, or the node's price and a half |
| `GasPrice.PriceOffMainNetIs` | federator/src/lib/TransactionSender.js:54-57 | Elsewhere it is the node's price and a half, to the nearest wei, at least 1 |
| `GasPrice.PriceFallsShortExactlyWhen` | federator/src/lib/TransactionSender.js:67-95 | The price is below the node's exactly when the oracle's fast price with its margin is, and is the one taken |
| `GasPrice.NeverBelowTrustedNode` | federator/src/lib/TransactionSender.js:69-95 | With fast at least propose a trusted node's price is never undercut |
| `GasPrice.OffMainNet` | federator/src/lib/TransactionSender.js:54-57 | Off the main net the price ignores the oracle, is the node's and a half to the nearest wei, and is monotone |
| `GasPrice.RskPriceCoversMinimum` | federator/src/lib/TransactionSender.js:100-104 | The RSK price is the block's minimum and 3 percent, to the nearest wei, and never below the minimum or 1 |
| `Scheduling.PollingNeverOverlaps` | federator/src/services/Scheduler.js:12-43 | In every interleaving from the start, runs in flight and armed timers together are at most one |
| `Scheduling.PollingGoesOn` | federator/src/services/Scheduler.js:20-31 | Once started, while the service does not fail and nobody stops it, there is always a run in flight or a timer armed, and a timer that fires begins a run |
| `Scheduling.StartRunsAtOnce` | federator/src/services/Scheduler.js:12-18 | An accepted start has a run in flight when it returns to its caller |
| `Scheduling.StopIsFinalExactlyWhen` | federator/src/services/Scheduler.js:33-43 | After a stop no run ever begins again exactly when polling had started and no run was in flight |
| `Scheduling.FailureIsFinal` | federator/src/services/Scheduler.js:20-31 | After the service fails no run ever begins again |
| `Scheduling.StartsOnlyOnce` | federator/src/services/Scheduler.js:12-18 | Once started, every later start is refused, also after a stop |
| `Retrying.Retry` | federator/src/lib/utils.js:17-38 | At most the allowed calls, three by default; the result is the first success, or the first error flagged as not to be retried, or the last; the time waited is the sum of the pauses, which are the interval itself when not exponential |
| `Retrying.GeometricWait` | federator/src/lib/utils.js:33-35 | The exponential pauses add up to interval times factor + ... + factor^k, the factor being 2 by default |
| `Retrying.RetryNTimes` | federator/src/lib/typescriptUtils.ts:5-22 | The outcome is the single promise's own for any number of attempts; the final throw is never reached |

## Left out

- The Solidity contracts: only the assumptions named above are used.
- Signing, nonces, gas limits, the Etherscan broadcast, web3 transport: a send is a tick with one of
  four deliveries; `status: false` stands for every failure that `sendTransaction` swallows.
- The retry helpers inside the vote path: a retried call is one call of the relay model that answers,
  fails or is cut short; the helpers themselves are modelled in `Retrying`.
- Lower-casing of transaction ids before they are looked up in the reverted file: ids are compared as
  the contract returns them.
- A progress file with text that is not a decimal number, and a configured block that is not a
  non-negative number.
- A first pass that lies entirely below zero, and rejection of negative block numbers by a node: a
  world may fail or answer such a request.
- Emission of heartbeats (`Heartbeat.run`) and what is reported of each event: I/O only.
- Rounding of floating-point numbers: the gas factors are exact fractions.
- Wall-clock time: sleeps between attempts and the polling interval do nothing in the model; only
  the pauses of the retry helpers are added up.
- AllowTokens.CacheIsTransparentExactlyWhen: says nothing of a failed call to the contract behind a
  cached token; the cache answers where a direct call would
  throw, so agreement is stated for calls the contract would answer.
- Contract factories, version dispatch, deployment scripts, configuration, metrics, the status endpoint.
