/**
 The heartbeat reader, step by step: the third page loop.  It votes for nothing; its pages and its
 progress file follow the same rules.
 */
module HeartbeatReading {
  import opened Options
  import opened Network
  import opened Paging
  import opened Relay
  import opened Exits

  class Heartbeat {
    const w: World
    const cfg: Config
    var clock: nat
    var lastBlock: Option<int>
    var reverted: set<TxId>
    var chainId: Option<int>
    ghost var trace: seq<Event>

    constructor (w: World, cfg: Config, lastBlock: Option<int>, reverted: set<TxId>)
      ensures this.w == w && this.cfg == cfg
      ensures Snapshot() == State(0, lastBlock, reverted, None, [])
    {
      this.w, this.cfg, this.clock, this.lastBlock := w, cfg, 0, lastBlock;
      this.reverted, this.chainId, this.trace := reverted, None, [];
    }

    ghost function Snapshot(): State
      reads this
    {
      State(clock, lastBlock, reverted, chainId, trace)
    }

    ghost function Result(exit: Exit): Outcome
      reads this
    {
      match exit
      case Finished => Done(Snapshot())
      case Quit(why) => Stopped(Snapshot(), why)
    }

    // A call to a node, a contract or the disk whose answer has been read from `w` at this tick.
    method Call() returns (exit: Exit)
      modifies this`clock
      ensures Result(exit) == Relay.Call(w, old(Snapshot()))
    {
      var fate := w.fate(clock);
      clock := clock + 1;
      match fate {
        case Answers => exit := Finished;
        case Fails => exit := Quit(Failed);
        case Halts => exit := Quit(Crashed);
      }
    }

    method SaveProgress(value: int) returns (exit: Exit)
      modifies this
      ensures value == 0 ==> exit.Finished? && Snapshot() == old(Snapshot())
      ensures value != 0 && exit.Finished? ==>
                Snapshot() == old(Snapshot()).(
                  clock := old(clock) + 1, lastBlock := Some(value), trace := old(trace) + [Saved(old(clock), value)])
      ensures exit.Quit? ==> Snapshot() == old(Snapshot()).(clock := old(clock) + 1)
      ensures forall scan: Scan | !scan.Nft? :: Result(exit) == Relay.SaveProgress(w, old(Snapshot()), scan, value)
    {
      if value != 0 {
        :- Call();
        lastBlock := Some(value);
        trace := trace + [Saved(clock - 1, value)];
      }
      exit := Finished;
    }

    // An event is only reported, together with the height of the side chain.
    method ProcessHeartbeatLogs(logs: seq<Log>, ghost scan: Scan) returns (exit: Exit)
      requires scan.Beat?
      modifies this
      ensures Result(exit) == Relay.ProcessLogs(w, old(Snapshot()), scan, logs)
    {
      exit := Call();
    }

    method FetchPage(fromPageBlock: int, toPagedBlock: int, ghost scan: Scan) returns (exit: Exit)
      requires scan.Beat?
      modifies this
      ensures Result(exit) == Relay.FetchPage(w, old(Snapshot()), scan, Page(fromPageBlock, toPagedBlock))
    {
      hide Extends, VotingOnly, Relay.ProcessLogs, Relay.SaveProgress;
      var heartbeatLogs := w.logs(clock, fromPageBlock, toPagedBlock);
      :- Call();
      trace := trace + [Fetched(clock - 1, scan, Page(fromPageBlock, toPagedBlock))];
      :- ProcessHeartbeatLogs(heartbeatLogs, scan);
      exit := SaveProgress(toPagedBlock);
    }

    // The page loop of `readLogs`.  It has no guard of its own: an empty range gives no page.
    method ReadPages(fromBlock: int, toBlock: int, ghost scan: Scan) returns (exit: Exit)
      requires scan.Beat?
      modifies this
      ensures Result(exit) == FetchPages(w, old(Snapshot()), scan, Pages(fromBlock, toBlock))
    {
      hide Extends, Relay.FetchPage;
      var numberOfPages := NumberOfPages(fromBlock, toBlock);
      var fromPageBlock := fromBlock;
      ghost var spec := FetchPages(w, Snapshot(), scan, Pages(fromBlock, toBlock));
      var currentPage := 1;
      while currentPage <= numberOfPages
        invariant currentPage <= numberOfPages + 1 || numberOfPages < 1 == currentPage
        invariant FetchPages(w, Snapshot(), scan, PagesFrom(fromPageBlock, currentPage, numberOfPages, toBlock)) == spec
      {
        var toPagedBlock := fromPageBlock + RECORDS_PER_PAGE - 1;
        if currentPage == numberOfPages {
          toPagedBlock := toBlock;
        }
        ghost var pages := PagesFrom(fromPageBlock, currentPage, numberOfPages, toBlock);
        assert pages[1..] == PagesFrom(toPagedBlock + 1, currentPage + 1, numberOfPages, toBlock);
        :- FetchPage(fromPageBlock, toPagedBlock, scan);
        fromPageBlock := toPagedBlock + 1;
        currentPage := currentPage + 1;
      }
      exit := Finished;
    }

    // The body of the `try` block of `readLogs`.
    method Attempt() returns (exit: Exit)
      requires cfg.kind == HeartbeatReader
      modifies this
      ensures Result(exit) == Relay.Attempt(w, old(Snapshot()), cfg)
    {
      hide Extends, FetchPages;
      var toBlock := w.height(clock);
      :- Call();
      if toBlock <= 0 {
        return Quit(Idle);
      }
      var fromBlock: int := cfg.fromBlock;
      if w.readable(clock) && lastBlock.Some? {
        fromBlock := lastBlock.value;
      }
      :- Call();
      if fromBlock < cfg.fromBlock {
        fromBlock := cfg.fromBlock;
      }
      if fromBlock >= toBlock {
        return Quit(Idle);
      }
      fromBlock := fromBlock + 1;
      exit := ReadPages(fromBlock, toBlock, Beat(toBlock));
    }

    method ReadLogs() returns (exit: Exit)
      requires cfg.kind == HeartbeatReader
      modifies this
      ensures Result(exit) == Relay.Run(w, old(Snapshot()), cfg)
      ensures w.fate(old(clock)).Answers? && w.netId(old(clock)) !in {0, 5777, 30, 31, 33} ==>
                exit == Quit(Exited) && clock == old(clock) + 1
    {
      hide Relay.Attempt, Extends;
      var onRsk := IsRskChain(w.netId(clock));
      :- Call();
      if !onRsk {
        return Quit(Exited);
      }
      ghost var spec := Attempts(w, Snapshot(), cfg, 3);
      var retries: nat := 3;
      while retries > 0
        invariant 0 < retries && Attempts(w, Snapshot(), cfg, retries) == spec
      {
        exit := Attempt();
        if exit != Quit(Failed) {
          return;
        }
        retries := retries - 1;
        if retries == 0 {
          return Quit(Exited);
        }
      }
    }
  }
}
