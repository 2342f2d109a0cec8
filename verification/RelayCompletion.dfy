/**
 When a run completes, and what stops it: an event whose token is neither mapped nor allowed holds
 the progress file below its block, and in a healthy world a run completes exactly when there are
 blocks to look at.
 */
module RelayCompletion {
  import opened Network
  import opened Paging
  import opened Relay
  import opened RelayCoverage
  import opened RelayProgress
  import opened RelayRising

  // ---------------------------------------------------------------- a token that is not allowed

  // From tick `t` on the chain shows the event, and its token is neither mapped nor allowed.
  ghost predicate Barred(w: World, t: nat, log: Log) {
    forall s: nat | t <= s ::
      && w.emitted(s, log)
      && w.sideToken(s, log) == ZERO_ADDRESS
      && !w.limits(s, log.tokenAddress).allowed
  }

  lemma {:induction false} BarredEventStops(w: World, st: State, scan: Scan, logs: seq<Log>, log: Log)
    requires (scan.Deep? || scan.Shallow?) && Barred(w, st.clock, log) && log in logs
    ensures !ProcessEach(w, st, scan, logs).Done?
    decreases logs
  {
    hide CastVote, VotingOnly;
    if logs[0] == log {
    } else {
      var one := ProcessErc20Log(w, st, scan, logs[0]);
      if one.Done? {
        BarredEventStops(w, one.st, scan, logs[1..], log);
      }
    }
  }

  // Between `a` and `b` only heights below the block were saved, and the file holds none that is not.
  ghost predicate SavesBelow(a: State, b: State, block: int) {
    && a.trace <= b.trace
    && (forall i | |a.trace| <= i < |b.trace| && b.trace[i].Saved? :: b.trace[i].height < block)
    && (b.lastBlock.Some? ==> b.lastBlock.value < block)
  }

  lemma SavesBelowAdd(a: State, b: State, c: State, block: int)
    requires SavesBelow(a, b, block) && SavesBelow(b, c, block)
    ensures SavesBelow(a, c, block)
  {
    forall i | |a.trace| <= i < |c.trace| && c.trace[i].Saved?
      ensures c.trace[i].height < block
    {
      if i < |b.trace| {
        assert c.trace[i] == b.trace[i];
      }
    }
  }

  lemma NothingIsSaved(a: State, b: State, block: int)
    requires b.trace == a.trace && b.lastBlock == a.lastBlock
    requires a.lastBlock.Some? ==> a.lastBlock.value < block
    ensures SavesBelow(a, b, block)
  {
  }

  // A page that ends below the event saves its end at most; the page of the event does not finish.
  lemma PageSavesBelow(w: World, st: State, scan: Scan, page: Page, log: Log)
    requires (scan.Deep? || scan.Shallow?) && Faithful(w) && Barred(w, st.clock, log)
    requires st.lastBlock.Some? ==> st.lastBlock.value < log.blockNumber
    requires scan.Deep? ==> page.from <= log.blockNumber
    ensures var out := FetchPage(w, st, scan, page);
            && SavesBelow(st, out.st, log.blockNumber)
            && (out.Done? && scan.Deep? ==> page.to < log.blockNumber)
  {
    hide ProcessEach;
    var noted := Note(st.(clock := st.clock + 1), Fetched(st.clock, scan, page));
    var logs := w.logs(st.clock, page.from, page.to);
    if page.Covers(log.blockNumber) {
      assert log in logs;
      BarredEventStops(w, Call(w, noted).st, scan, logs, log);
    }
  }

  lemma {:induction false} PagesSaveBelow(w: World, st: State, scan: Scan, pages: seq<Page>, log: Log)
    requires (scan.Deep? || scan.Shallow?) && Faithful(w) && Barred(w, st.clock, log)
    requires st.lastBlock.Some? ==> st.lastBlock.value < log.blockNumber
    requires scan.Deep? ==> Contiguous(pages) && (pages != [] ==> pages[0].from <= log.blockNumber)
    ensures SavesBelow(st, FetchPages(w, st, scan, pages).st, log.blockNumber)
    decreases pages
  {
    hide FetchPage, Faithful;
    if pages == [] {
    } else {
      var one := FetchPage(w, st, scan, pages[0]);
      PageSavesBelow(w, st, scan, pages[0], log);
      if one.Done? {
        assert scan.Deep? && |pages| > 1 ==> pages[1].from == pages[0].to + 1;
        PagesSaveBelow(w, one.st, scan, pages[1..], log);
        SavesBelowAdd(st, one.st, FetchPages(w, one.st, scan, pages[1..]).st, log.blockNumber);
      }
    }
  }

  lemma ScanSavesBelow(w: World, st: State, scan: Scan, from: int, to: int, log: Log)
    requires (scan.Deep? || scan.Shallow?) && Faithful(w) && Barred(w, st.clock, log)
    requires st.lastBlock.Some? ==> st.lastBlock.value < log.blockNumber
    requires scan.Deep? ==> from <= log.blockNumber
    ensures SavesBelow(st, GetLogsAndProcess(w, st, scan, from, to).st, log.blockNumber)
  {
    hide FetchPages, Pages, Faithful;
    PagePartition(from, to);
    var st1 := Call(w, st).st;
    PagesSaveBelow(w, st1, scan, Pages(from, to), log);
  }

  lemma TwoPassesSaveBelow(w: World, st: State, cfg: Config, cur: int, conf: Confirmations, log: Log)
    requires Faithful(w) && Barred(w, st.clock, log) && Progress(st, cfg) < log.blockNumber
    ensures SavesBelow(st, TwoPasses(w, st, cfg, cur, conf).st, log.blockNumber)
  {
    hide GetLogsAndProcess, Faithful;
    var from, toBlock, newToBlock := LastProcessed(w, st, cfg) + 1, cur - conf.large, cur - conf.small;
    var st1 := Call(w, st).st;
    var first := GetLogsAndProcess(w, st1, Deep(cur, conf), from, toBlock).st;
    ScanSavesBelow(w, st1, Deep(cur, conf), from, toBlock, log);
    ScanSavesBelow(w, first, Shallow(cur, conf), toBlock, newToBlock, log);
    SavesBelowAdd(st1, first, GetLogsAndProcess(w, first, Shallow(cur, conf), toBlock, newToBlock).st, log.blockNumber);
  }

  // So a run whose first pass has pages up to the block or beyond does not complete.
  lemma BarredRunDoesNotComplete(w: World, st: State, cfg: Config, cur: int, conf: Confirmations, log: Log)
    requires Faithful(w) && Barred(w, st.clock, log) && Progress(st, cfg) < log.blockNumber <= cur - conf.large
    requires LastProcessed(w, st, cfg) + 1 < cur - conf.large
    ensures !TwoPasses(w, st, cfg, cur, conf).Done?
  {
    hide TwoPasses, Faithful;
    TwoPassesSaveBelow(w, st, cfg, cur, conf, log);
    LagsByAtMostOne(w, st, cfg, cur, conf);
  }

  lemma AttemptSavesBelow(w: World, st: State, cfg: Config, log: Log)
    requires cfg.kind == Erc20 && Faithful(w) && Barred(w, st.clock, log) && Progress(st, cfg) < log.blockNumber
    ensures SavesBelow(st, Attempt(w, st, cfg).st, log.blockNumber)
  {
    hide TwoPasses, Faithful;
    var st3 := st.(clock := st.clock + 4);
    TwoPassesSaveBelow(w, st3, cfg, w.height(st.clock), w.confirmations(st.clock + 3), log);
  }

  // Main result: one event of a token that is neither mapped nor allowed, and stays so, stops the
  // ERC20 relay: no history ever saves a height at or above its block, whatever else happens.
  lemma {:induction false} BarredEventHoldsProgress(w: World, st: State, cfg: Config, runs: nat, log: Log)
    requires cfg.kind == Erc20 && Faithful(w) && Barred(w, st.clock, log) && Progress(st, cfg) < log.blockNumber
    ensures SavesBelow(st, History(w, st, cfg, runs), log.blockNumber)
    ensures Progress(History(w, st, cfg, runs), cfg) < log.blockNumber
    ensures st.clock <= History(w, st, cfg, runs).clock
    decreases runs
  {
    hide Attempt, Faithful;
    if runs == 0 {
    } else {
      var before := History(w, st, cfg, runs - 1);
      BarredEventHoldsProgress(w, st, cfg, runs - 1, log);
      AttemptSavesBelow(w, before, cfg, log);
      var out := Run(w, before, cfg);
      assert out.st == Attempt(w, before, cfg).st;
      SavesBelowAdd(st, before, Restart(out), log.blockNumber);
    }
  }

  // ---------------------------------------------------------------- a healthy world

  // From tick `t` on every call is answered, the nodes are in sync, the federator is a member, every
  // token is mapped or allowed, and the outcome of every send is learnt.
  ghost predicate Healthy(w: World, t: nat) {
    && (forall s: nat | t <= s :: w.fate(s).Answers? && w.member(s) && !w.mainSyncing(s) && !w.sideSyncing(s))
    && (forall s: nat, tx: TxId | t <= s :: w.delivery(s, tx).Mined? || w.delivery(s, tx).Refused?)
    && (forall s: nat, r: nat, log: Log | t <= s && t <= r ::
          w.sideToken(s, log) != ZERO_ADDRESS || w.limits(r, log.tokenAddress).allowed)
  }

  lemma HealthyCast(w: World, t: nat, st: State, cur: int, terms: Terms, log: Log)
    requires Healthy(w, t) && t <= st.clock
    ensures CastVote(w, st, cur, terms, log).Done?
  {
    hide Extends, VotingOnly;
  }

  lemma {:induction false} HealthyEach(w: World, t: nat, st: State, scan: Scan, logs: seq<Log>)
    requires Healthy(w, t) && t <= st.clock && !scan.Beat?
    ensures ProcessEach(w, st, scan, logs).Done?
    decreases logs
  {
    hide CastVote, VotingOnly;
    if logs == [] {
    } else {
      var log := logs[0];
      var one := if scan.Nft? then ProcessNftLog(w, st, scan, log) else ProcessErc20Log(w, st, scan, log);
      if scan.Nft? {
        var st1 := GetCurrentChainId(w, st).st;
        HealthyCast(w, t, st1, scan.cur, Flat(NftConfirmations(st1.chainId.value)), log);
      } else {
        var st2 := Call(w, Call(w, st).st).st;
        var limits := w.limits(st.clock + 1, LimitsToken(log, w.sideToken(st.clock, log)));
        HealthyCast(w, t, st2, scan.cur, Tiered(scan.conf, limits), log);
      }
      HealthyEach(w, t, one.st, scan, logs[1..]);
    }
  }

  lemma {:induction false} HealthyPages(w: World, t: nat, st: State, scan: Scan, pages: seq<Page>)
    requires Healthy(w, t) && t <= st.clock
    ensures FetchPages(w, st, scan, pages).Done?
    decreases pages
  {
    hide ProcessEach, VotingOnly;
    if pages == [] {
    } else {
      var noted := Note(st.(clock := st.clock + 1), Fetched(st.clock, scan, pages[0]));
      if !scan.Beat? {
        HealthyEach(w, t, Call(w, noted).st, scan, w.logs(st.clock, pages[0].from, pages[0].to));
      }
      HealthyPages(w, t, FetchPage(w, st, scan, pages[0]).st, scan, pages[1..]);
    }
  }

  lemma HealthyScan(w: World, t: nat, st: State, scan: Scan, from: int, to: int)
    requires Healthy(w, t) && t <= st.clock
    ensures GetLogsAndProcess(w, st, scan, from, to).Done?
  {
    hide FetchPages, Pages;
    HealthyPages(w, t, Call(w, st).st, scan, Pages(from, to));
  }

  // Some block above the one the run continues from is due.
  predicate HasWork(w: World, st: State, cfg: Config) {
    var base := LastProcessed(w, st.(clock := ReadsFileAt(st, cfg)), cfg);
    || base < SavesUpTo(w, st, cfg)
    || (cfg.kind == Erc20 && base < w.height(st.clock) - w.confirmations(st.clock + 3).small)
  }

  lemma HealthyTwoPasses(w: World, t: nat, st: State, cfg: Config, cur: int, conf: Confirmations)
    requires Healthy(w, t) && t <= st.clock
    ensures var base, out := LastProcessed(w, st, cfg), TwoPasses(w, st, cfg, cur, conf);
            if base < cur - conf.large || base < cur - conf.small then out.Done? else out == Stopped(out.st, Idle)
  {
    hide GetLogsAndProcess;
    var st1 := Call(w, st).st;
    var from, toBlock, newToBlock := LastProcessed(w, st, cfg) + 1, cur - conf.large, cur - conf.small;
    HealthyScan(w, t, st1, Deep(cur, conf), from, toBlock);
    var first := GetLogsAndProcess(w, st1, Deep(cur, conf), from, toBlock).st;
    HealthyScan(w, t, first, Shallow(cur, conf), toBlock, newToBlock);
  }

  lemma HealthyOnePass(w: World, t: nat, st: State, cfg: Config, scan: Scan, to: int)
    requires Healthy(w, t) && t <= st.clock
    ensures var base, out := LastProcessed(w, st, cfg), OnePass(w, st, cfg, scan, to);
            if base < to then out.Done? else out == Stopped(out.st, Idle)
  {
    hide GetLogsAndProcess, FetchPages, Pages;
    var st1 := Call(w, st).st;
    var from := LastProcessed(w, st, cfg) + 1;
    HealthyScan(w, t, st1, scan, from, to);
    HealthyPages(w, t, st1, scan, Pages(from, to));
  }

  lemma HealthyAttempt(w: World, st: State, cfg: Config)
    requires Healthy(w, st.clock)
    ensures var out := Attempt(w, st, cfg);
            if HasWork(w, st, cfg) then out.Done? else out == Stopped(out.st, Idle)
  {
    hide TwoPasses, OnePass;
    var cur := w.height(st.clock);
    match cfg.kind
    case Erc20 =>
      HealthyTwoPasses(w, st.clock, st.(clock := st.clock + 4), cfg, cur, w.confirmations(st.clock + 3));
    case NonFungible =>
      var known := GetCurrentChainId(w, Call(w, st).st).st;
      var st3 := CheckSynced(w, known).st;
      HealthyOnePass(w, st.clock, st3, cfg, Nft(cur), cur - NftConfirmations(st3.chainId.value));
    case HeartbeatReader =>
      HealthyOnePass(w, st.clock, Call(w, st).st, cfg, Beat(cur), cur);
  }

  // Main result: in a healthy world a run of any of the programs completes exactly when some block
  // above the one it continues from is due; otherwise it has nothing to do.
  lemma HealthyRunCompletesExactlyWhen(w: World, st: State, cfg: Config)
    requires Healthy(w, st.clock) && BeforeAttempts(w, st, cfg).Done?
    ensures Run(w, st, cfg).Done? <==> HasWork(w, BeforeAttempts(w, st, cfg).st, cfg)
    ensures !Run(w, st, cfg).Done? ==> Run(w, st, cfg) == Stopped(Run(w, st, cfg).st, Idle)
  {
    hide Attempt, HasWork;
    var first := BeforeAttempts(w, st, cfg).st;
    assert Healthy(w, first.clock);
    HealthyAttempt(w, first, cfg);
  }

  // In any world a run that completes had work to do.
  lemma CompletedRunHadWork(w: World, st: State, cfg: Config)
    requires Attempt(w, st, cfg).Done?
    ensures HasWork(w, st, cfg)
  {
    hide GetLogsAndProcess, FetchPages, Pages;
  }
}
