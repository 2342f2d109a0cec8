/**
 The NFT federator, step by step: one pass, one depth fixed by the origin chain, three attempts.
 */
module FederatorNft {
  import opened Options
  import opened Network
  import opened Paging
  import opened Relay
  import opened Exits

  class FederatorNFT {
    const w: World
    const cfg: Config
    var clock: nat
    var lastBlock: Option<int>
    var reverted: set<TxId>
    var chainId: Option<int>
    ghost var trace: seq<Event>

    constructor (w: World, cfg: Config, lastBlock: Option<int>, reverted: set<TxId>)
      ensures this.w == w && this.cfg == cfg
      ensures Snapshot() == State(0, lastBlock, reverted, None, [])
    {
      this.w, this.cfg, this.clock, this.lastBlock := w, cfg, 0, lastBlock;
      this.reverted, this.chainId, this.trace := reverted, None, [];
    }

    ghost function Snapshot(): State
      reads this
    {
      State(clock, lastBlock, reverted, chainId, trace)
    }

    ghost function Result(exit: Exit): Outcome
      reads this
    {
      match exit
      case Finished => Done(Snapshot())
      case Quit(why) => Stopped(Snapshot(), why)
    }

    // A call to a node, a contract or the disk whose answer has been read from `w` at this tick.
    method Call() returns (exit: Exit)
      modifies this`clock
      ensures Result(exit) == Relay.Call(w, old(Snapshot()))
    {
      var fate := w.fate(clock);
      clock := clock + 1;
      match fate {
        case Answers => exit := Finished;
        case Fails => exit := Quit(Failed);
        case Halts => exit := Quit(Crashed);
      }
    }

    method SaveProgress(value: int, ghost scan: Scan) returns (exit: Exit)
      requires scan.Nft?
      modifies this
      ensures exit.Finished? ==>
                Snapshot() == old(Snapshot()).(
                  clock := old(clock) + 1, lastBlock := Some(value), trace := old(trace) + [Saved(old(clock), value)])
      ensures exit.Quit? ==> Snapshot() == old(Snapshot()).(clock := old(clock) + 1)
      ensures Result(exit) == Relay.SaveProgress(w, old(Snapshot()), scan, value)
    {
      ghost var at := clock;
      :- Call();
      lastBlock := Some(value);
      trace := trace + [Saved(at, value)];
      exit := Finished;
    }

    method GetCurrentChainId() returns (exit: Exit, id: int)
      modifies this
      ensures Result(exit) == Relay.GetCurrentChainId(w, old(Snapshot()))
      ensures exit.Finished? ==> chainId == Some(id)
    {
      id := 0;
      if chainId.None? {
        id := w.netId(clock);
        exit := Call();
        if exit.Quit? {
          return;
        }
        chainId := Some(id);
      }
      id := chainId.value;
      exit := Finished;
    }

    // Successive assignments to one local, as the source has them.
    method GetNftConfirmationsForCurrentChainId() returns (exit: Exit, confirmations: int)
      modifies this
      ensures Result(exit) == Relay.GetCurrentChainId(w, old(Snapshot()))
      ensures exit.Finished? ==> chainId.Some? && confirmations == NftConfirmations(chainId.value)
      ensures exit.Finished? && chainId == Some(1) ==> confirmations == 240
      ensures exit.Finished? && chainId == Some(30) ==> confirmations == 120
      ensures exit.Finished? && chainId == Some(42) ==> confirmations == 10
      ensures exit.Finished? && chainId == Some(31) ==> confirmations == 2
      ensures exit.Finished? && chainId.value !in {1, 30, 31, 42} ==> confirmations == 0
    {
      confirmations := 0;
      var id;
      exit, id := GetCurrentChainId();
      if exit.Quit? {
        return;
      }
      if id == RSK_TEST_NET_CHAIN_ID {
        confirmations := 2;
      }
      if id == ETH_KOVAN_CHAIN_ID {
        confirmations := 10;
      }
      if id == ETH_MAIN_NET_CHAIN_ID {
        confirmations := 240;
      }
      if id == RSK_MAIN_NET_CHAIN_ID {
        confirmations := 120;
      }
    }

    // `handleRevertedTxns`, with the call data already built.
    method VoteTransaction(b: Ballot) returns (exit: Exit)
      modifies this
      ensures Result(exit) == Relay.VoteTransaction(w, old(Snapshot()), b)
    {
      var revertedTxns := reverted;
      :- Call();
      if b.tx in revertedTxns {
        trace := trace + [FoundReverted(clock - 1, b.log)];
        return Finished;
      }
      :- Call();
      var delivery := w.delivery(clock - 1, b.tx);
      trace := trace + [Sent(clock - 1, b, delivery)];
      match delivery {
        case LostByThrow => return Quit(Failed);
        case LostByHalt => return Quit(Crashed);
        case Refused =>
          :- Call();
          reverted := revertedTxns + {b.tx};
        case Mined =>
      }
      exit := Call();  // the metric
    }

    method CastVote(log: Log, currentBlock: int, confirmations: int) returns (exit: Exit)
      modifies this
      ensures Result(exit) == Relay.CastVote(w, old(Snapshot()), currentBlock, Flat(confirmations), log)
    {
      hide Extends, VotingOnly, Relay.VoteTransaction;
      var transactionId := w.txId(log);
      var wasProcessed := w.processed(clock, transactionId);
      :- Call();
      if wasProcessed {
        trace := trace + [FoundProcessed(clock - 1, log)];
        return Finished;
      }
      var hasVoted := w.voted(clock, transactionId);
      :- Call();
      if hasVoted {
        trace := trace + [FoundVoted(clock - 1, log)];
        return Finished;
      }
      exit := VoteTransaction(
        Ballot(log, transactionId, currentBlock, Flat(confirmations), clock - 2, clock - 1));
    }

    // The body of the loop over the events of a page.
    method ProcessLog(log: Log, currentBlock: int) returns (exit: Exit)
      modifies this
      ensures Result(exit) == ProcessNftLog(w, old(Snapshot()), Nft(currentBlock), log)
    {
      hide Extends, VotingOnly, Relay.CastVote;
      var blocksConfirmed := currentBlock - log.blockNumber;
      var confirmations;
      exit, confirmations := GetNftConfirmationsForCurrentChainId();
      if exit.Quit? {
        return;
      }
      if blocksConfirmed < confirmations {
        trace := trace + [TooShallow(log, Nft(currentBlock))];
        return Finished;
      }
      exit := CastVote(log, currentBlock, confirmations);
    }

    method ProcessLogs(logs: seq<Log>, currentBlock: int) returns (exit: Exit)
      modifies this
      ensures Result(exit) == Relay.ProcessLogs(w, old(Snapshot()), Nft(currentBlock), logs)
    {
      hide Extends, VotingOnly, ProcessNftLog;
      var isMember := w.member(clock);
      :- Call();
      if !isMember {
        trace := trace + [NotMember(clock - 1)];
        return Quit(Failed);
      }
      ghost var spec := ProcessEach(w, Snapshot(), Nft(currentBlock), logs);
      var i := 0;
      while i < |logs|
        invariant 0 <= i <= |logs|
        invariant ProcessEach(w, Snapshot(), Nft(currentBlock), logs[i..]) == spec
      {
        assert logs[i..][1..] == logs[i + 1..];
        :- ProcessLog(logs[i], currentBlock);
        i := i + 1;
      }
      exit := Finished;
    }

    method FetchPage(fromPageBlock: int, toPagedBlock: int, currentBlock: int) returns (exit: Exit)
      modifies this
      ensures Result(exit) == Relay.FetchPage(w, old(Snapshot()), Nft(currentBlock), Page(fromPageBlock, toPagedBlock))
    {
      hide Extends, VotingOnly, Relay.ProcessLogs, Relay.SaveProgress;
      var logs := w.logs(clock, fromPageBlock, toPagedBlock);
      :- Call();
      trace := trace + [Fetched(clock - 1, Nft(currentBlock), Page(fromPageBlock, toPagedBlock))];
      :- ProcessLogs(logs, currentBlock);
      exit := SaveProgress(toPagedBlock, Nft(currentBlock));
    }

    method GetLogsAndProcess(fromBlock: int, toBlock: int, currentBlock: int) returns (exit: Exit)
      modifies this
      ensures Result(exit) == Relay.GetLogsAndProcess(w, old(Snapshot()), Nft(currentBlock), fromBlock, toBlock)
    {
      hide Extends, Relay.FetchPage;
      if fromBlock >= toBlock {
        return Finished;
      }
      :- Call();
      var numberOfPages := NumberOfPages(fromBlock, toBlock);
      var fromPageBlock := fromBlock;
      ghost var spec := FetchPages(w, Snapshot(), Nft(currentBlock), Pages(fromBlock, toBlock));
      var currentPage := 1;
      while currentPage <= numberOfPages
        invariant currentPage <= numberOfPages + 1
        invariant FetchPages(w, Snapshot(), Nft(currentBlock),
                    PagesFrom(fromPageBlock, currentPage, numberOfPages, toBlock)) == spec
      {
        var toPagedBlock := fromPageBlock + RECORDS_PER_PAGE - 1;
        if currentPage == numberOfPages {
          toPagedBlock := toBlock;
        }
        ghost var pages := PagesFrom(fromPageBlock, currentPage, numberOfPages, toBlock);
        assert pages[1..] == PagesFrom(toPagedBlock + 1, currentPage + 1, numberOfPages, toBlock);
        :- FetchPage(fromPageBlock, toPagedBlock, currentBlock);
        fromPageBlock := toPagedBlock + 1;
        currentPage := currentPage + 1;
      }
      exit := Finished;
    }

    method CheckSynced() returns (exit: Exit)
      modifies this
      ensures Result(exit) == Relay.CheckSynced(w, old(Snapshot()))
    {
      var isMainSyncing := w.mainSyncing(clock);
      :- Call();
      if isMainSyncing {
        return Quit(Syncing);
      }
      var isSideSyncing := w.sideSyncing(clock);
      :- Call();
      if isSideSyncing {
        return Quit(Syncing);
      }
      exit := Finished;
    }

    method OnePass(currentBlock: int, toBlock: int) returns (exit: Exit)
      modifies this
      ensures Result(exit) == Relay.OnePass(w, old(Snapshot()), cfg, Nft(currentBlock), toBlock)
    {
      hide Extends, Relay.GetLogsAndProcess;
      if toBlock <= 0 {
        return Quit(Idle);
      }
      var fromBlock: int := cfg.fromBlock;
      if w.readable(clock) && lastBlock.Some? {
        fromBlock := lastBlock.value;
      }
      :- Call();
      if fromBlock < cfg.fromBlock {
        fromBlock := cfg.fromBlock;
      }
      if fromBlock >= toBlock {
        return Quit(Idle);
      }
      fromBlock := fromBlock + 1;
      exit := GetLogsAndProcess(fromBlock, toBlock, currentBlock);
    }

    // The body of the `try` block of `run`.
    method Attempt() returns (exit: Exit)
      requires cfg.kind == NonFungible
      modifies this
      ensures Result(exit) == Relay.Attempt(w, old(Snapshot()), cfg)
    {
      hide Extends, Relay.OnePass;
      var currentBlock := w.height(clock);
      :- Call();
      var id;
      exit, id := GetCurrentChainId();
      if exit.Quit? {
        return;
      }
      :- CheckSynced();
      var confirmations;
      exit, confirmations := GetNftConfirmationsForCurrentChainId();
      if exit.Quit? {
        return;
      }
      exit := OnePass(currentBlock, currentBlock - confirmations);
    }

    method Run() returns (exit: Exit)
      requires cfg.kind == NonFungible
      modifies this
      ensures Result(exit) == Relay.Run(w, old(Snapshot()), cfg)
    {
      hide Relay.Attempt, Extends;
      var retries: nat := 3;
      while retries > 0
        invariant 0 < retries && Attempts(w, Snapshot(), cfg, retries) == Attempts(w, old(Snapshot()), cfg, 3)
      {
        exit := Attempt();
        if exit != Quit(Failed) {
          return;
        }
        retries := retries - 1;
        if retries == 0 {
          return Quit(Exited);
        }
      }
    }
  }
}
