/**
 When the heights saved over a whole history rise.  The condition is on the attempts: each one that
 saves anything must set out above what the file held.
 */
module RelayRising {
  import opened Options
  import opened Network
  import opened Paging
  import opened Relay
  import opened RelayProgress

  // The file holds the last height saved so far, and none of them is below the configured block.
  ghost predicate FileHoldsLast(st: State, cfg: Config) {
    var saves := Saves(st.trace);
    && AllAbove(saves, cfg.fromBlock)
    && (saves != [] ==> st.lastBlock == Some(saves[|saves| - 1]))
  }

  // The tick at which an attempt reads the progress file, and the block up to which it then saves.
  function ReadsFileAt(st: State, cfg: Config): nat {
    match cfg.kind
    case Erc20 => st.clock + 4
    case NonFungible => if st.chainId.Some? then st.clock + 3 else st.clock + 4
    case HeartbeatReader => st.clock + 1
  }

  function SavesUpTo(w: World, st: State, cfg: Config): int {
    match cfg.kind
    case Erc20 => w.height(st.clock) - w.confirmations(st.clock + 3).large
    case NonFungible => w.height(st.clock) - NftConfirmations(st.chainId.GetOr(w.netId(st.clock + 1)))
    case HeartbeatReader => w.height(st.clock)
  }

  // What is in the file is read, or lies below the end of the first page counted from the configured
  // block; or nothing was saved before.
  ghost predicate SetsOutAbove(w: World, st: State, cfg: Config, readAt: nat, to: int) {
    var pages := Pages(cfg.fromBlock + 1, to);
    || Saves(st.trace) == []
    || w.readable(readAt)
    || (pages != [] && st.lastBlock.Some? && pages[0].to > st.lastBlock.value)
  }

  ghost predicate AttemptSetsOutAbove(w: World, st: State, cfg: Config) {
    || Saves(Attempt(w, st, cfg).st.trace) == Saves(st.trace)
    || SetsOutAbove(w, st, cfg, ReadsFileAt(st, cfg), SavesUpTo(w, st, cfg))
  }

  lemma RisingAdd(a: seq<int>, b: seq<int>)
    requires StrictlyRising(b) && b != []
    ensures StrictlyRising(a + b) <==> StrictlyRising(a) && (a == [] || a[|a| - 1] < b[0])
  {
    var c := a + b;
    if StrictlyRising(c) {
      assert forall i | 0 <= i < |a| :: c[i] == a[i];
      assert c[|a|] == b[0];
    }
  }

  // One pass that saved the first `m` of its pages.
  lemma PassRisesExactlyWhen(w: World, a: State, b: State, cfg: Config, to: int, m: nat)
    requires FileHoldsLast(a, cfg)
    requires var pages := Pages(LastProcessed(w, a, cfg) + 1, to);
             && m <= |pages|
             && Saves(b.trace) == Saves(a.trace) + Ends(pages[..m])
             && b.lastBlock == if m == 0 then a.lastBlock else Some(pages[m - 1].to)
    ensures FileHoldsLast(b, cfg)
    ensures StrictlyRising(Saves(b.trace)) <==>
              StrictlyRising(Saves(a.trace))
              && (Saves(b.trace) == Saves(a.trace) || SetsOutAbove(w, a, cfg, a.clock, to))
  {
    hide Pages, Saves, StrictlyRising;
    var from := LastProcessed(w, a, cfg) + 1;
    var pages := Pages(from, to);
    var before, ends := Saves(a.trace), Ends(pages[..m]);
    EndsAreAbove(before, from, to, m, cfg.fromBlock);
    PageEndsRise(from, to, m);
    if m == 0 {
      assert before + ends == before;
    } else {
      assert ends[0] == pages[0].to && (before + ends)[|before| + m - 1] == ends[m - 1] == pages[m - 1].to;
      assert Saves(b.trace) != before;
      assert before != [] ==> before[|before| - 1] in before;
      RisingAdd(before, ends);
    }
  }

  lemma OnePassRisesExactlyWhen(w: World, st: State, cfg: Config, scan: Scan, to: int)
    requires (scan.Nft? || scan.Beat?) && FileHoldsLast(st, cfg)
    ensures var out := OnePass(w, st, cfg, scan, to).st;
            && FileHoldsLast(out, cfg)
            && (StrictlyRising(Saves(out.trace)) <==>
                  StrictlyRising(Saves(st.trace))
                  && (Saves(out.trace) == Saves(st.trace) || SetsOutAbove(w, st, cfg, st.clock, to)))
  {
    hide GetLogsAndProcess, FetchPages, Pages, Saves, Fetches, StrictlyRising, SetsOutAbove;
    var from := LastProcessed(w, st, cfg) + 1;
    var st1 := Call(w, st).st;
    var n, m;
    if scan.Beat? {
      PositivePages(from, to);
      n, m := ScanProgress(w, st1, scan, Pages(from, to));
      PassRisesExactlyWhen(w, st, FetchPages(w, st1, scan, Pages(from, to)).st, cfg, to, m);
    } else {
      n, m := ScanRange(w, st1, scan, from, to);
      PassRisesExactlyWhen(w, st, GetLogsAndProcess(w, st1, scan, from, to).st, cfg, to, m);
    }
  }

  lemma TwoPassesRiseExactlyWhen(w: World, st: State, cfg: Config, cur: int, conf: Confirmations)
    requires FileHoldsLast(st, cfg)
    ensures var out := TwoPasses(w, st, cfg, cur, conf).st;
            && FileHoldsLast(out, cfg)
            && (StrictlyRising(Saves(out.trace)) <==>
                  StrictlyRising(Saves(st.trace))
                  && (Saves(out.trace) == Saves(st.trace) || SetsOutAbove(w, st, cfg, st.clock, cur - conf.large)))
  {
    hide GetLogsAndProcess, FetchPages, Pages, Saves, Fetches, StrictlyRising, SetsOutAbove;
    var from := LastProcessed(w, st, cfg) + 1;
    var st1 := Call(w, st).st;
    var toBlock, newToBlock := cur - conf.large, cur - conf.small;
    var n, m := ScanRange(w, st1, Deep(cur, conf), from, toBlock);
    var first := GetLogsAndProcess(w, st1, Deep(cur, conf), from, toBlock).st;
    PassRisesExactlyWhen(w, st, first, cfg, toBlock, m);
    var n', m' := ScanRange(w, first, Shallow(cur, conf), toBlock, newToBlock);
    var second := GetLogsAndProcess(w, first, Shallow(cur, conf), toBlock, newToBlock).st;
    assert Saves(second.trace) == Saves(first.trace) by {
      assert Ends(Pages(toBlock, newToBlock)[..m']) == [];
    }
  }

  lemma AttemptRisesExactlyWhen(w: World, st: State, cfg: Config)
    requires FileHoldsLast(st, cfg)
    ensures FileHoldsLast(Attempt(w, st, cfg).st, cfg)
    ensures StrictlyRising(Saves(Attempt(w, st, cfg).st.trace)) <==>
              StrictlyRising(Saves(st.trace)) && AttemptSetsOutAbove(w, st, cfg)
  {
    hide TwoPasses, OnePass, Pages, Saves, StrictlyRising, AllAbove;
    var cur := w.height(st.clock);
    var st1 := Call(w, st).st;
    match cfg.kind
    case Erc20 =>
      var st3 := st.(clock := st.clock + 4);
      TwoPassesRiseExactlyWhen(w, st3, cfg, cur, w.confirmations(st.clock + 3));
    case NonFungible =>
      var known := GetCurrentChainId(w, st1);
      if known.Done? {
        var st3 := CheckSynced(w, known.st).st;
        OnePassRisesExactlyWhen(w, st3, cfg, Nft(cur), cur - NftConfirmations(st3.chainId.value));
      }
    case HeartbeatReader =>
      OnePassRisesExactlyWhen(w, st1, cfg, Beat(cur), cur);
  }

  // ---------------------------------------------------------------- histories

  // Every attempt of a run that saves anything sets out above the file.
  ghost predicate AttemptsSetOutAbove(w: World, st: State, cfg: Config, retries: nat)
    decreases retries
  {
    var out := Attempt(w, st, cfg);
    && AttemptSetsOutAbove(w, st, cfg)
    && (out.Stopped? && out.why.Failed? && retries > 1 ==> AttemptsSetOutAbove(w, out.st, cfg, retries - 1))
  }

  // The state in which the attempts of a run begin; the heartbeat reader first asks for its chain.
  function BeforeAttempts(w: World, st: State, cfg: Config): Outcome {
    if cfg.kind != HeartbeatReader then Done(st)
    else
      var st1 :- Call(w, st);
      if IsRskChain(w.netId(st.clock)) then Done(st1) else Stopped(st1, Exited)
  }

  ghost predicate RunSetsOutAbove(w: World, st: State, cfg: Config) {
    var first := BeforeAttempts(w, st, cfg);
    first.Done? ==> AttemptsSetOutAbove(w, first.st, cfg, Retries(cfg.kind))
  }

  ghost predicate HistorySetsOutAbove(w: World, st: State, cfg: Config, runs: nat) {
    runs == 0
    || (HistorySetsOutAbove(w, st, cfg, runs - 1) && RunSetsOutAbove(w, History(w, st, cfg, runs - 1), cfg))
  }

  lemma {:induction false} AttemptsRiseExactlyWhen(w: World, st: State, cfg: Config, retries: nat)
    requires FileHoldsLast(st, cfg) && retries > 0
    ensures FileHoldsLast(Attempts(w, st, cfg, retries).st, cfg)
    ensures StrictlyRising(Saves(Attempts(w, st, cfg, retries).st.trace)) <==>
              StrictlyRising(Saves(st.trace)) && AttemptsSetOutAbove(w, st, cfg, retries)
    decreases retries
  {
    hide Attempt, Saves, StrictlyRising, AttemptSetsOutAbove, FileHoldsLast, Extends;
    AttemptRisesExactlyWhen(w, st, cfg);
    if retries == 1 {
    } else {
      AttemptsRiseExactlyWhen(w, Attempt(w, st, cfg).st, cfg, retries - 1);
    }
  }

  lemma SavesAlike(a: State, b: State, cfg: Config)
    requires FileHoldsLast(a, cfg) && b.trace == a.trace && b.lastBlock == a.lastBlock
    ensures FileHoldsLast(b, cfg)
  {
  }

  lemma RunRisesExactlyWhen(w: World, st: State, cfg: Config)
    requires FileHoldsLast(st, cfg)
    ensures FileHoldsLast(Restart(Run(w, st, cfg)), cfg)
    ensures StrictlyRising(Saves(Run(w, st, cfg).st.trace)) <==>
              StrictlyRising(Saves(st.trace)) && RunSetsOutAbove(w, st, cfg)
  {
    hide Attempts, AttemptsSetOutAbove, Extends, Saves, StrictlyRising, FileHoldsLast;
    var first := BeforeAttempts(w, st, cfg);
    var out := Run(w, st, cfg);
    SavesAlike(st, first.st, cfg);
    if first.Done? {
      AttemptsRiseExactlyWhen(w, first.st, cfg, Retries(cfg.kind));
    }
    SavesAlike(out.st, Restart(out), cfg);
  }

  // Main result: over any history of any of the programs, each height saved exceeds all heights saved
  // before it exactly when every attempt that saves anything could read its file, or had nothing
  // saved before it, or happened to start with a page that ends above what the file held.
  lemma {:induction false} RisesExactlyWhen(w: World, st: State, cfg: Config, runs: nat)
    requires st.trace == []
    ensures FileHoldsLast(History(w, st, cfg, runs), cfg)
    ensures StrictlyRising(Saves(History(w, st, cfg, runs).trace)) <==> HistorySetsOutAbove(w, st, cfg, runs)
    decreases runs
  {
    hide Run, RunSetsOutAbove;
    if runs == 0 {
    } else {
      hide Saves, StrictlyRising, FileHoldsLast;
      RisesExactlyWhen(w, st, cfg, runs - 1);
      RunRisesExactlyWhen(w, History(w, st, cfg, runs - 1), cfg);
    }
  }
}
