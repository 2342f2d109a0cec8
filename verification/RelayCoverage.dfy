/**
 Nothing is lost: what a run fetches, how far its progress file gets, and why every event at or
 below the persisted block has been dealt with, over any history of runs, failures and restarts.
 */
module RelayCoverage {
  import opened Network
  import opened Paging
  import opened Relay
  import opened RelaySafety

  // ---------------------------------------------------------------- handled events

  predicate Settles(w: World, e: Event, tx: TxId) {
    match e
    case FoundProcessed(_, log) => w.txId(log) == tx
    case FoundVoted(_, log) => w.txId(log) == tx
    case Sent(_, b, delivery) => b.tx == tx && delivery.Mined?
    case _ => false
  }

  // The id was seen processed or voted, was voted by us, or is in the reverted file.
  ghost predicate Handled(w: World, st: State, tx: TxId) {
    || tx in st.reverted
    || exists e :: e in st.trace && Settles(w, e, tx)
  }

  // The second pass put the event off, by the limits it had just been told.
  ghost predicate PutOff(w: World, st: State, scan: Scan, log: Log) {
    scan.Shallow? && exists e :: e in st.trace && e.Deferred? && e.log == log && e.scan == scan
  }

  lemma HandledLater(w: World, a: State, b: State)
    requires Extends(a, b)
    ensures forall tx | Handled(w, a, tx) :: Handled(w, b, tx)
    ensures forall scan, log | PutOff(w, a, scan, log) :: PutOff(w, b, scan, log)
  {
  }

  lemma CastHandles(w: World, st: State, cur: int, terms: Terms, log: Log)
    ensures var out := CastVote(w, st, cur, terms, log); out.Done? ==> Handled(w, out.st, w.txId(log))
  {
    var out := CastVote(w, st, cur, terms, log);
    if out.Done? && w.txId(log) !in out.st.reverted {
      var e := out.st.trace[|st.trace|];
      assert e in out.st.trace && Settles(w, e, w.txId(log));
    }
  }

  lemma OneHandled(w: World, st: State, scan: Scan, log: Log)
    requires !scan.Beat?
    requires scan.Nft? ==> st.chainId.Some? && log.blockNumber <= Ceiling(st, scan)
    ensures var out := if scan.Nft? then ProcessNftLog(w, st, scan, log) else ProcessErc20Log(w, st, scan, log);
            out.Done? ==> Handled(w, out.st, w.txId(log)) || PutOff(w, out.st, scan, log)
  {
    if scan.Nft? {
      CastHandles(w, st, scan.cur, Flat(NftConfirmations(st.chainId.value)), log);
    } else {
      var st1 := Call(w, st).st;
      var st2 := Call(w, st1).st;
      var limits := w.limits(st1.clock, LimitsToken(log, w.sideToken(st.clock, log)));
      CastHandles(w, st2, scan.cur, Tiered(scan.conf, limits), log);
      var out := ProcessErc20Log(w, st, scan, log);
      if out.Done? && scan.Shallow? && Defers(scan.cur, scan.conf, limits, log) {
        assert Deferred(st1.clock, log, scan, limits) in out.st.trace;
      }
    }
  }

  lemma {:induction false} EachHandled(w: World, st: State, scan: Scan, logs: seq<Log>)
    requires !scan.Beat?
    requires scan.Nft? ==> st.chainId.Some? && forall log | log in logs :: log.blockNumber <= Ceiling(st, scan)
    ensures var out := ProcessEach(w, st, scan, logs);
            out.Done? ==> forall log | log in logs :: Handled(w, out.st, w.txId(log)) || PutOff(w, out.st, scan, log)
    decreases logs
  {
    if logs == [] {
    } else {
      var log := logs[0];
      var one := if scan.Nft? then ProcessNftLog(w, st, scan, log) else ProcessErc20Log(w, st, scan, log);
      if one.Done? {
        OneHandled(w, st, scan, log);
        EachHandled(w, one.st, scan, logs[1..]);
        HandledLater(w, one.st, ProcessEach(w, one.st, scan, logs[1..]).st);
      }
    }
  }

  // ---------------------------------------------------------------- no event lost

  // Every event the chain will ever show in (start, upTo] has been dealt with.
  ghost predicate Cleared(w: World, st: State, start: int, upTo: int) {
    forall t: nat, log: Log | st.clock <= t && start < log.blockNumber <= upTo && w.emitted(t, log) ::
      Handled(w, st, w.txId(log))
  }

  // From tick `t` on the events at or below `top` stay as they are.
  ghost predicate Still(w: World, t: nat, top: int) {
    forall t': nat, log: Log | t <= t' && log.blockNumber <= top :: w.emitted(t', log) == w.emitted(t, log)
  }

  lemma ClearedLater(w: World, a: State, b: State, start: int, upTo: int)
    requires Extends(a, b) && Cleared(w, a, start, upTo)
    ensures Cleared(w, b, start, upTo)
  {
  }

  lemma ClearedBelow(w: World, a: State, b: State, start: int, high: int, low: int)
    requires Extends(a, b) && Cleared(w, a, start, high) && low <= high
    ensures Cleared(w, b, start, low)
  {
  }

  lemma StillLater(w: World, t: nat, t': nat, top: int)
    requires Still(w, t, top) && t <= t'
    ensures Still(w, t', top)
  {
  }

  lemma RangeFits(st: State, scan: Scan, from: int)
    requires scan.Nft? ==> st.chainId.Some?
    ensures var pages := Pages(from, Ceiling(st, scan));
            && PagesFit(st, scan, pages)
            && Contiguous(pages)
            && (pages != [] ==> pages[0].from == from)
  {
    PagesEndInRange(from, Ceiling(st, scan));
    PagePartition(from, Ceiling(st, scan));
  }

  // A page that went through clears its blocks.
  lemma PageClears(w: World, st: State, scan: Scan, page: Page, start: int)
    requires Faithful(w) && (scan.Deep? || scan.Nft?) && (scan.Nft? ==> st.chainId.Some?)
    requires page.to <= Ceiling(st, scan) && Still(w, st.clock, Ceiling(st, scan))
    requires Cleared(w, st, start, page.from - 1)
    ensures var noted := Note(st.(clock := st.clock + 1), Fetched(st.clock, scan, page));
            var out := ProcessLogs(w, noted, scan, w.logs(st.clock, page.from, page.to));
            out.Done? ==> Cleared(w, out.st, start, page.to)
  {
    var noted := Note(st.(clock := st.clock + 1), Fetched(st.clock, scan, page));
    var logs := w.logs(st.clock, page.from, page.to);
    var out := ProcessLogs(w, noted, scan, logs);
    if out.Done? {
      var st1 := Call(w, noted).st;
      forall log | log in logs
        ensures log.blockNumber <= page.to
      {
        FetchedEventIsReal(w, st.clock, page, log);
      }
      EachHandled(w, st1, scan, logs);
      HandledLater(w, st, out.st);
      forall t: nat, log: Log | out.st.clock <= t && start < log.blockNumber <= page.to && w.emitted(t, log)
        ensures Handled(w, out.st, w.txId(log))
      {
        if log.blockNumber >= page.from {
          assert w.emitted(st.clock, log);
          assert log in w.logs(st.clock, page.from, page.to);
        }
      }
    }
  }

  // Progress saved by a scan is covered by what the scan dealt with, wherever it was cut short.
  lemma {:induction false} PagesClear(w: World, st: State, scan: Scan, pages: seq<Page>, start: int)
    requires Faithful(w) && (scan.Deep? || scan.Nft?) && (scan.Nft? ==> st.chainId.Some?)
    requires PagesFit(st, scan, pages) && Contiguous(pages) && Still(w, st.clock, Ceiling(st, scan))
    requires pages != [] ==> Cleared(w, st, start, pages[0].from - 1)
    ensures var out := FetchPages(w, st, scan, pages);
            out.st.lastBlock == st.lastBlock
            || (out.st.lastBlock.Some? && Cleared(w, out.st, start, out.st.lastBlock.value))
    decreases pages
  {
    hide ProcessLogs, Cleared, Still;
    if pages == [] || !w.fate(st.clock).Answers? {
    } else {
      var page := pages[0];
      var noted := Note(st.(clock := st.clock + 1), Fetched(st.clock, scan, page));
      var processed := ProcessLogs(w, noted, scan, w.logs(st.clock, page.from, page.to));
      PageClears(w, st, scan, page, start);
      if processed.Done? {
        var saved := SaveProgress(w, processed.st, scan, page.to);
        if saved.Done? {
          var out := FetchPages(w, saved.st, scan, pages[1..]);
          ClearedLater(w, processed.st, saved.st, start, page.to);
          assert pages[1..] != [] ==> pages[1].from == page.to + 1;
          StillLater(w, st.clock, saved.st.clock, Ceiling(st, scan));
          PagesClear(w, saved.st, scan, pages[1..], start);
          ClearedLater(w, saved.st, out.st, start, page.to);
        }
      }
    }
  }

  // The height a process has reached: what its file says, but never below the configured block.
  function Progress(st: State, cfg: Config): int {
    var saved := st.lastBlock.GetOr(cfg.fromBlock);
    if saved < cfg.fromBlock then cfg.fromBlock else saved
  }

  ghost predicate Covered(w: World, st: State, cfg: Config, start: int) {
    Cleared(w, st, start, Progress(st, cfg))
  }

  lemma CoveredAfter(w: World, a: State, b: State, cfg: Config, start: int)
    requires Extends(a, b) && Covered(w, a, cfg, start)
    requires b.lastBlock == a.lastBlock || (b.lastBlock.Some? && Cleared(w, b, start, b.lastBlock.value))
    ensures Covered(w, b, cfg, start)
  {
  }

  lemma ScanClears(w: World, st: State, cfg: Config, scan: Scan, base: int, start: int)
    requires Faithful(w) && (scan.Deep? || scan.Nft?) && (scan.Nft? ==> st.chainId.Some?)
    requires Covered(w, st, cfg, start) && base <= Progress(st, cfg)
    requires Still(w, st.clock, Ceiling(st, scan))
    ensures Covered(w, GetLogsAndProcess(w, st, scan, base + 1, Ceiling(st, scan)).st, cfg, start)
  {
    hide Cleared, Still, FetchPages, Pages, PagesFit;
    var to := Ceiling(st, scan);
    var out := GetLogsAndProcess(w, st, scan, base + 1, to);
    var st1 := Call(w, st).st;
    ClearedBelow(w, st, st1, start, Progress(st, cfg), base);
    StillLater(w, st.clock, st1.clock, to);
    RangeFits(st1, scan, base + 1);
    PagesClear(w, st1, scan, Pages(base + 1, to), start);
    CoveredAfter(w, st, out.st, cfg, start);
  }

  lemma {:induction false} SecondPassSavesNothing(w: World, st: State, scan: Scan, pages: seq<Page>)
    requires scan.Shallow?
    ensures FetchPages(w, st, scan, pages).st.lastBlock == st.lastBlock
    decreases pages
  {
    hide ProcessLogs;
    if pages == [] || !w.fate(st.clock).Answers? {
    } else {
      var noted := Note(st.(clock := st.clock + 1), Fetched(st.clock, scan, pages[0]));
      var processed := ProcessLogs(w, noted, scan, w.logs(st.clock, pages[0].from, pages[0].to));
      if processed.Done? {
        SecondPassSavesNothing(w, processed.st, scan, pages[1..]);
      }
    }
  }

  lemma SecondScanSavesNothing(w: World, st: State, scan: Scan, from: int, to: int)
    requires scan.Shallow?
    ensures GetLogsAndProcess(w, st, scan, from, to).st.lastBlock == st.lastBlock
  {
    SecondPassSavesNothing(w, Call(w, st).st, scan, Pages(from, to));
  }

  // Each depth the program waits for is at least the depth at which the chain is final.
  ghost predicate WaitsLongEnough(w: World, cfg: Config, depth: int) {
    && (cfg.kind == Erc20 ==> forall t: nat :: w.confirmations(t).large >= depth)
    && (cfg.kind == NonFungible ==> forall t: nat :: NftConfirmations(w.netId(t)) >= depth)
  }

  ghost predicate MemoDeep(st: State, depth: int) {
    st.chainId.Some? ==> NftConfirmations(st.chainId.value) >= depth
  }

  lemma TwoPassesCover(w: World, st: State, cfg: Config, h: nat, conf: Confirmations, start: int, depth: int)
    requires Faithful(w) && Final(w, depth) && conf.large >= depth && h < st.clock
    requires Covered(w, st, cfg, start)
    ensures Covered(w, TwoPasses(w, st, cfg, w.height(h), conf).st, cfg, start)
  {
    var cur := w.height(h);
    var base := LastProcessed(w, st, cfg);
    var st1 := Call(w, st).st;
    hide Cleared, GetLogsAndProcess, FetchPages, Pages;
    ClearedLater(w, st, st1, start, Progress(st, cfg));
    ScanClears(w, st1, cfg, Deep(cur, conf), base, start);
    var first := GetLogsAndProcess(w, st1, Deep(cur, conf), base + 1, cur - conf.large);
    var second := GetLogsAndProcess(w, first.st, Shallow(cur, conf), cur - conf.large, cur - conf.small);
    SecondScanSavesNothing(w, first.st, Shallow(cur, conf), cur - conf.large, cur - conf.small);
    CoveredAfter(w, first.st, second.st, cfg, start);
  }

  lemma NftPassCovers(w: World, st: State, cfg: Config, h: nat, start: int, depth: int)
    requires Faithful(w) && Final(w, depth) && h < st.clock
    requires st.chainId.Some? && MemoDeep(st, depth)
    requires Covered(w, st, cfg, start)
    ensures var cur := w.height(h);
            Covered(w, OnePass(w, st, cfg, Nft(cur), cur - NftConfirmations(st.chainId.value)).st, cfg, start)
  {
    hide Cleared, GetLogsAndProcess, Pages;
    var st1 := Call(w, st).st;
    ClearedLater(w, st, st1, start, Progress(st, cfg));
    ScanClears(w, st1, cfg, Nft(w.height(h)), LastProcessed(w, st, cfg), start);
  }

  lemma Erc20AttemptCovers(w: World, st: State, cfg: Config, start: int, depth: int)
    requires cfg.kind == Erc20
    requires Faithful(w) && Final(w, depth) && WaitsLongEnough(w, cfg, depth)
    requires Covered(w, st, cfg, start)
    ensures Covered(w, Attempt(w, st, cfg).st, cfg, start)
  {
    hide Cleared, Final, Faithful, TwoPasses, VotingOnly;
    var st1 := Call(w, st).st;
    CoveredAfter(w, st, st1, cfg, start);
    var synced := CheckSynced(w, st1);
    CoveredAfter(w, st1, synced.st, cfg, start);
    if synced.Done? {
      var st3 := Call(w, synced.st).st;
      CoveredAfter(w, synced.st, st3, cfg, start);
      TwoPassesCover(w, st3, cfg, st.clock, w.confirmations(synced.st.clock), start, depth);
    }
  }

  lemma NftAttemptCovers(w: World, st: State, cfg: Config, start: int, depth: int)
    requires cfg.kind == NonFungible
    requires Faithful(w) && Final(w, depth) && WaitsLongEnough(w, cfg, depth)
    requires Covered(w, st, cfg, start) && MemoDeep(st, depth)
    ensures Covered(w, Attempt(w, st, cfg).st, cfg, start)
    ensures MemoDeep(Attempt(w, st, cfg).st, depth)
  {
    hide Cleared, Final, Faithful, OnePass, VotingOnly;
    var st1 := Call(w, st).st;
    CoveredAfter(w, st, st1, cfg, start);
    var known := GetCurrentChainId(w, st1);
    CoveredAfter(w, st1, known.st, cfg, start);
    if known.Done? {
      var synced := CheckSynced(w, known.st);
      CoveredAfter(w, known.st, synced.st, cfg, start);
      if synced.Done? {
        NftPassCovers(w, synced.st, cfg, st.clock, start, depth);
      }
    }
  }

  lemma AttemptCovers(w: World, st: State, cfg: Config, start: int, depth: int)
    requires cfg.kind != HeartbeatReader
    requires Faithful(w) && Final(w, depth) && WaitsLongEnough(w, cfg, depth)
    requires Covered(w, st, cfg, start) && (cfg.kind == NonFungible ==> MemoDeep(st, depth))
    ensures Covered(w, Attempt(w, st, cfg).st, cfg, start)
    ensures cfg.kind == NonFungible ==> MemoDeep(Attempt(w, st, cfg).st, depth)
  {
    hide *;
    if cfg.kind == Erc20 {
      Erc20AttemptCovers(w, st, cfg, start, depth);
    } else {
      NftAttemptCovers(w, st, cfg, start, depth);
    }
  }

  lemma {:induction false} AttemptsCover(w: World, st: State, cfg: Config, retries: nat, start: int, depth: int)
    requires cfg.kind != HeartbeatReader && retries > 0
    requires Faithful(w) && Final(w, depth) && WaitsLongEnough(w, cfg, depth)
    requires Covered(w, st, cfg, start) && (cfg.kind == NonFungible ==> MemoDeep(st, depth))
    ensures Covered(w, Attempts(w, st, cfg, retries).st, cfg, start)
    ensures cfg.kind == NonFungible ==> MemoDeep(Attempts(w, st, cfg, retries).st, depth)
    decreases retries
  {
    AttemptCovers(w, st, cfg, start, depth);
    if retries == 1 {
    } else {
      AttemptsCover(w, Attempt(w, st, cfg).st, cfg, retries - 1, start, depth);
    }
  }

  lemma RestartCovers(w: World, out: Outcome, cfg: Config, start: int)
    requires Covered(w, out.st, cfg, start)
    ensures Covered(w, Restart(out), cfg, start)
  {
  }

  lemma {:induction false} HistoryCovers(w: World, st: State, cfg: Config, runs: nat, start: int, depth: int)
    requires cfg.kind != HeartbeatReader
    requires Faithful(w) && Final(w, depth) && WaitsLongEnough(w, cfg, depth)
    requires Covered(w, st, cfg, start) && (cfg.kind == NonFungible ==> MemoDeep(st, depth))
    ensures Covered(w, History(w, st, cfg, runs), cfg, start)
    ensures cfg.kind == NonFungible ==> MemoDeep(History(w, st, cfg, runs), depth)
    decreases runs
  {
    hide Covered, Attempts, Extends, Faithful, Final, WaitsLongEnough;
    if runs == 0 {
    } else {
      HistoryCovers(w, st, cfg, runs - 1, start, depth);
      var before := History(w, st, cfg, runs - 1);
      AttemptsCover(w, before, cfg, Retries(cfg.kind), start, depth);
      RestartCovers(w, Run(w, before, cfg), cfg, start);
    }
  }

  predicate FoundDone(w: World, st: State, e: Event, tx: TxId) {
    match e
    case FoundProcessed(at, log) => at < st.clock && w.txId(log) == tx && w.processed(at, tx)
    case FoundVoted(at, log) => at < st.clock && w.txId(log) == tx && w.voted(at, tx)
    case _ => false
  }

  // In the world's own terms: the chain answered that the id was processed, or voted by us, when it
  // was asked; or our vote for it was mined; or it was refused, and is on file as such.
  ghost predicate DealtWith(w: World, st: State, tx: TxId) {
    || tx in st.reverted
    || exists e :: e in st.trace && (FoundDone(w, st, e, tx) || (e.Sent? && e.delivery.Mined? && e.ballot.tx == tx))
  }

  lemma HandledIsDealtWith(w: World, st: State, tx: TxId)
    requires Sound(w, st) && Handled(w, st, tx)
    ensures DealtWith(w, st, tx)
  {
  }

  // Main result: after any history, every event above the starting height and at or below the
  // persisted height, in any later view of the chain, has been dealt with.
  lemma NoEventLost(w: World, st: State, cfg: Config, runs: nat, depth: int, t: nat, log: Log)
    requires cfg.kind != HeartbeatReader
    requires Faithful(w) && Final(w, depth) && WaitsLongEnough(w, cfg, depth) && Fresh(st)
    requires History(w, st, cfg, runs).clock <= t && w.emitted(t, log)
    requires Progress(st, cfg) < log.blockNumber <= Progress(History(w, st, cfg, runs), cfg)
    ensures DealtWith(w, History(w, st, cfg, runs), w.txId(log))
  {
    hide History, Handled, DealtWith, Sound;
    HistoryCovers(w, st, cfg, runs, Progress(st, cfg), depth);
    HistoryIsSound(w, st, cfg, runs);
    HandledIsDealtWith(w, History(w, st, cfg, runs), w.txId(log));
  }
}
