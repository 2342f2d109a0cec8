/**
 The ERC20 federator, step by step.  An instance is one process with its files; every method is
 proved to do to it what the function of the same name in `Relay` says.
 */
module FederatorErc20 {
  import opened Options
  import opened Network
  import opened Paging
  import opened Relay
  import opened Exits

  function ScanOf(cur: int, mediumAndSmall: bool, conf: Confirmations): Scan {
    if mediumAndSmall then Shallow(cur, conf) else Deep(cur, conf)
  }

  class Federator {
    const w: World
    const cfg: Config
    var clock: nat
    var lastBlock: Option<int>
    var reverted: set<TxId>
    var chainId: Option<int>
    ghost var trace: seq<Event>

    constructor (w: World, cfg: Config, lastBlock: Option<int>, reverted: set<TxId>)
      ensures this.w == w && this.cfg == cfg
      ensures Snapshot() == State(0, lastBlock, reverted, None, [])
    {
      this.w, this.cfg, this.clock, this.lastBlock := w, cfg, 0, lastBlock;
      this.reverted, this.chainId, this.trace := reverted, None, [];
    }

    ghost function Snapshot(): State
      reads this
    {
      State(clock, lastBlock, reverted, chainId, trace)
    }

    ghost function Result(exit: Exit): Outcome
      reads this
    {
      match exit
      case Finished => Done(Snapshot())
      case Quit(why) => Stopped(Snapshot(), why)
    }

    // A call to a node, a contract or the disk whose answer has been read from `w` at this tick.
    method Call() returns (exit: Exit)
      modifies this`clock
      ensures Result(exit) == Relay.Call(w, old(Snapshot()))
    {
      var fate := w.fate(clock);
      clock := clock + 1;
      match fate {
        case Answers => exit := Finished;
        case Fails => exit := Quit(Failed);
        case Halts => exit := Quit(Crashed);
      }
    }

    method SaveProgress(value: int) returns (exit: Exit)
      modifies this
      ensures value == 0 ==> exit.Finished? && Snapshot() == old(Snapshot())
      ensures value != 0 && exit.Finished? ==>
                Snapshot() == old(Snapshot()).(
                  clock := old(clock) + 1, lastBlock := Some(value), trace := old(trace) + [Saved(old(clock), value)])
      ensures exit.Quit? ==> Snapshot() == old(Snapshot()).(clock := old(clock) + 1)
      ensures forall scan: Scan | !scan.Nft? :: Result(exit) == Relay.SaveProgress(w, old(Snapshot()), scan, value)
    {
      if value != 0 {
        :- Call();
        lastBlock := Some(value);
        trace := trace + [Saved(clock - 1, value)];
      }
      exit := Finished;
    }

    method VoteTransaction(b: Ballot) returns (exit: Exit)
      modifies this
      ensures Result(exit) == Relay.VoteTransaction(w, old(Snapshot()), b)
    {
      var revertedTxns := reverted;
      :- Call();
      if b.tx in revertedTxns {
        trace := trace + [FoundReverted(clock - 1, b.log)];
        return Finished;
      }
      :- Call();
      var delivery := w.delivery(clock - 1, b.tx);
      trace := trace + [Sent(clock - 1, b, delivery)];
      match delivery {
        case LostByThrow => return Quit(Failed);
        case LostByHalt => return Quit(Crashed);
        case Refused =>
          :- Call();
          reverted := revertedTxns + {b.tx};
        case Mined =>
      }
      exit := Call();  // the metric
    }

    method CastVote(log: Log, currentBlock: int, terms: Terms) returns (exit: Exit)
      modifies this
      ensures Result(exit) == Relay.CastVote(w, old(Snapshot()), currentBlock, terms, log)
    {
      hide Extends, VotingOnly, Relay.VoteTransaction;
      var transactionId := w.txId(log);
      var wasProcessed := w.processed(clock, transactionId);
      :- Call();
      if !wasProcessed {
        var hasVoted := w.voted(clock, transactionId);
        :- Call();
        if !hasVoted {
          :- VoteTransaction(Ballot(log, transactionId, currentBlock, terms, clock - 2, clock - 1));
        } else {
          trace := trace + [FoundVoted(clock - 1, log)];
        }
      } else {
        trace := trace + [FoundProcessed(clock - 1, log)];
      }
      exit := Finished;
    }

    // The body of the loop over the events of a page.
    method ProcessLog(log: Log, currentBlock: int, mediumAndSmall: bool, confirmations: Confirmations)
      returns (exit: Exit)
      modifies this
      ensures Result(exit)
           == ProcessErc20Log(w, old(Snapshot()), ScanOf(currentBlock, mediumAndSmall, confirmations), log)
    {
      hide Extends, VotingOnly, Relay.CastVote;
      ghost var scan := ScanOf(currentBlock, mediumAndSmall, confirmations);
      var sideToken := w.sideToken(clock, log);
      :- Call();
      var limits;
      if sideToken == ZERO_ADDRESS {
        limits := w.limits(clock, log.tokenAddress);
        :- Call();
        if !limits.allowed {
          trace := trace + [NotAllowed(clock - 1, log)];
          return Quit(Failed);
        }
      } else {
        limits := w.limits(clock, sideToken);
        :- Call();
      }
      if mediumAndSmall {
        if log.amount >= limits.largeAmount {
          trace := trace + [Deferred(clock - 1, log, scan, limits)];
          return Finished;
        }
        if log.amount >= limits.mediumAmount && currentBlock - log.blockNumber < confirmations.medium {
          trace := trace + [Deferred(clock - 1, log, scan, limits)];
          return Finished;
        }
      }
      exit := CastVote(log, currentBlock, Tiered(confirmations, limits));
    }

    method ProcessLogs(logs: seq<Log>, currentBlock: int, mediumAndSmall: bool, confirmations: Confirmations)
      returns (exit: Exit)
      modifies this
      ensures Result(exit)
           == Relay.ProcessLogs(w, old(Snapshot()), ScanOf(currentBlock, mediumAndSmall, confirmations), logs)
    {
      hide Extends, VotingOnly, ProcessErc20Log;
      ghost var scan := ScanOf(currentBlock, mediumAndSmall, confirmations);
      var isMember := w.member(clock);
      :- Call();
      if !isMember {
        trace := trace + [NotMember(clock - 1)];
        return Quit(Failed);
      }
      ghost var spec := ProcessEach(w, Snapshot(), scan, logs);
      var i := 0;
      while i < |logs|
        invariant 0 <= i <= |logs|
        invariant ProcessEach(w, Snapshot(), scan, logs[i..]) == spec
      {
        assert logs[i..][1..] == logs[i + 1..];
        :- ProcessLog(logs[i], currentBlock, mediumAndSmall, confirmations);
        i := i + 1;
      }
      exit := Finished;
    }

    method FetchPage(
      fromPageBlock: int, toPagedBlock: int, currentBlock: int, mediumAndSmall: bool, confirmations: Confirmations)
      returns (exit: Exit)
      modifies this
      ensures Result(exit) == Relay.FetchPage(w, old(Snapshot()),
                ScanOf(currentBlock, mediumAndSmall, confirmations), Page(fromPageBlock, toPagedBlock))
    {
      hide Extends, VotingOnly, Relay.ProcessLogs, Relay.SaveProgress;
      ghost var scan := ScanOf(currentBlock, mediumAndSmall, confirmations);
      var logs := w.logs(clock, fromPageBlock, toPagedBlock);
      :- Call();
      trace := trace + [Fetched(clock - 1, scan, Page(fromPageBlock, toPagedBlock))];
      :- ProcessLogs(logs, currentBlock, mediumAndSmall, confirmations);
      if !mediumAndSmall {
        :- SaveProgress(toPagedBlock);
      }
      exit := Finished;
    }

    method GetLogsAndProcess(
      fromBlock: int, toBlock: int, currentBlock: int, mediumAndSmall: bool, confirmations: Confirmations)
      returns (exit: Exit)
      modifies this
      ensures Result(exit) == Relay.GetLogsAndProcess(
                w, old(Snapshot()), ScanOf(currentBlock, mediumAndSmall, confirmations), fromBlock, toBlock)
    {
      hide Extends, Relay.FetchPage;
      if fromBlock >= toBlock {
        return Finished;
      }
      ghost var scan := ScanOf(currentBlock, mediumAndSmall, confirmations);
      :- Call();
      var numberOfPages := NumberOfPages(fromBlock, toBlock);
      var fromPageBlock := fromBlock;
      ghost var spec := FetchPages(w, Snapshot(), scan, Pages(fromBlock, toBlock));
      var currentPage := 1;
      while currentPage <= numberOfPages
        invariant currentPage <= numberOfPages + 1
        invariant FetchPages(w, Snapshot(), scan, PagesFrom(fromPageBlock, currentPage, numberOfPages, toBlock)) == spec
      {
        var toPagedBlock := fromPageBlock + RECORDS_PER_PAGE - 1;
        if currentPage == numberOfPages {
          toPagedBlock := toBlock;
        }
        ghost var pages := PagesFrom(fromPageBlock, currentPage, numberOfPages, toBlock);
        assert pages[1..] == PagesFrom(toPagedBlock + 1, currentPage + 1, numberOfPages, toBlock);
        :- FetchPage(fromPageBlock, toPagedBlock, currentBlock, mediumAndSmall, confirmations);
        fromPageBlock := toPagedBlock + 1;
        currentPage := currentPage + 1;
      }
      exit := Finished;
    }

    method CheckSynced() returns (exit: Exit)
      modifies this
      ensures Result(exit) == Relay.CheckSynced(w, old(Snapshot()))
    {
      var isMainSyncing := w.mainSyncing(clock);
      :- Call();
      if isMainSyncing {
        return Quit(Syncing);
      }
      var isSideSyncing := w.sideSyncing(clock);
      :- Call();
      if isSideSyncing {
        return Quit(Syncing);
      }
      exit := Finished;
    }

    method TwoPasses(currentBlock: int, confirmations: Confirmations) returns (exit: Exit)
      modifies this
      ensures Result(exit) == Relay.TwoPasses(w, old(Snapshot()), cfg, currentBlock, confirmations)
    {
      hide Extends, Relay.GetLogsAndProcess;
      var toBlock := currentBlock - confirmations.large;
      var newToBlock := currentBlock - confirmations.small;
      if toBlock <= 0 && newToBlock <= 0 {
        return Quit(Idle);
      }
      var fromBlock: int := cfg.fromBlock;
      if w.readable(clock) && lastBlock.Some? {
        fromBlock := lastBlock.value;
      }
      :- Call();
      if fromBlock < cfg.fromBlock {
        fromBlock := cfg.fromBlock;
      }
      if fromBlock >= toBlock && fromBlock >= newToBlock {
        return Quit(Idle);
      }
      fromBlock := fromBlock + 1;
      :- GetLogsAndProcess(fromBlock, toBlock, currentBlock, false, confirmations);
      var lastBlockProcessed := toBlock;
      exit := GetLogsAndProcess(lastBlockProcessed, newToBlock, currentBlock, true, confirmations);
    }

    // The body of the `try` block of `run`.
    method Attempt() returns (exit: Exit)
      requires cfg.kind == Erc20
      modifies this
      ensures Result(exit) == Relay.Attempt(w, old(Snapshot()), cfg)
    {
      hide Extends, Relay.TwoPasses;
      var currentBlock := w.height(clock);
      :- Call();
      :- CheckSynced();
      var confirmations := w.confirmations(clock);
      :- Call();
      exit := TwoPasses(currentBlock, confirmations);
    }

    // The retry loop of `run`, which sets out with one attempt.
    method RunAttempts(attempts: nat) returns (exit: Exit)
      requires cfg.kind == Erc20 && attempts > 0
      modifies this
      ensures Result(exit) == Attempts(w, old(Snapshot()), cfg, attempts)
    {
      hide Relay.Attempt, Extends;
      var retries := attempts;
      while retries > 0
        invariant 0 < retries && Attempts(w, Snapshot(), cfg, retries) == Attempts(w, old(Snapshot()), cfg, attempts)
      {
        exit := Attempt();
        if exit != Quit(Failed) {
          return;
        }
        retries := retries - 1;
        if retries == 0 {
          return Quit(Exited);
        }
      }
    }

    method Run() returns (exit: Exit)
      requires cfg.kind == Erc20
      modifies this
      ensures Result(exit) == Relay.Run(w, old(Snapshot()), cfg)
    {
      exit := RunAttempts(1);
    }
  }
}
