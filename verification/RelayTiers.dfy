/**
 Amount tiers: how deep a voted event is buried, what the second pass puts off, and the oldest
 AllowTokens contract, for which there is only one tier.
 */
module RelayTiers {
  import opened Options
  import opened Network
  import opened Paging
  import opened Relay
  import opened RelaySafety
  import opened RelayCoverage
  import opened RelayProgress
  import opened RelayJudgement
  import opened RelayExamples
  import opened AllowTokens

  // ---------------------------------------------------------------- depth

  // The depth each tier of amounts requires.
  predicate DeepForAmount(b: Ballot)
    requires b.terms.Tiered?
  {
    var depth, conf, limits := b.cur - b.log.blockNumber, b.terms.conf, b.terms.limits;
    && (b.log.amount >= limits.largeAmount ==> depth >= conf.large)
    && (limits.mediumAmount <= b.log.amount < limits.largeAmount ==> depth >= conf.medium)
    && (b.log.amount < limits.mediumAmount && b.log.amount < limits.largeAmount ==> depth >= conf.small)
  }

  // Main result: every vote in any history is judged by the rule of its program, on what its own
  // attempt read, and is buried as deep as that rule requires: for ERC20 as deep as the tier of its
  // amount, in both passes and on every page, whenever the confirmations of its attempt were ordered.
  lemma EveryVoteIsDeepEnough(w: World, st: State, cfg: Config, runs: nat, e: Event)
    requires Faithful(w) && Fresh(st)
    requires e in History(w, st, cfg, runs).trace && e.Sent?
    requires e.ballot.terms.Tiered? ==> Ordered(e.ballot.terms.conf)
    ensures cfg.kind != HeartbeatReader
    ensures if cfg.kind == Erc20 then e.ballot.terms.Tiered? else e.ballot.terms.Flat?
    ensures e.ballot.cur - e.ballot.log.blockNumber >= e.ballot.terms.Depth(e.ballot.log.amount)
    ensures cfg.kind == Erc20 ==> DeepForAmount(e.ballot)
    ensures Justified(w, e) && OwnAttempt(w, cfg, st, History(w, st, cfg, runs), e)
  {
    hide History, Attempt, Recorded, Lost, SameVote;
    HistoryIsSound(w, st, cfg, runs);
    VotesAreJudgedByTheirAttempt(w, st, cfg, runs);
    var i :| 0 <= i < |History(w, st, cfg, runs).trace| && History(w, st, cfg, runs).trace[i] == e;
  }

  ghost predicate AlwaysReports(w: World, conf: Confirmations) {
    forall t: nat :: w.confirmations(t) == conf
  }

  ghost predicate VotesAreDeep(w: World, st: State, cfg: Config, runs: nat) {
    forall e | e in History(w, st, cfg, runs).trace && e.Sent? ::
      e.ballot.cur - e.ballot.log.blockNumber >= e.ballot.terms.Depth(e.ballot.log.amount)
  }

  lemma OrderedVotesAreDeep(w: World, st: State, cfg: Config, runs: nat, conf: Confirmations)
    requires Ordered(conf) && cfg.kind == Erc20 && Faithful(w) && AlwaysReports(w, conf) && Fresh(st)
    ensures VotesAreDeep(w, st, cfg, runs)
  {
    hide History, Justified, OwnAttempt, Attempt;
    forall e | e in History(w, st, cfg, runs).trace && e.Sent?
      ensures e.ballot.cur - e.ballot.log.blockNumber >= e.ballot.terms.Depth(e.ballot.log.amount)
    {
      VotesAreJudgedByTheirAttempt(w, st, cfg, runs);
      var i :| 0 <= i < |History(w, st, cfg, runs).trace| && History(w, st, cfg, runs).trace[i] == e;
      var a, b := SentInSomeAttempt(w, st, cfg, runs, i);
      EveryVoteIsDeepEnough(w, st, cfg, runs, e);
    }
  }

  // Whenever the order fails, the first pass of the first run fetches a page with an event that is
  // not as deep as its tier requires, and votes for it.
  lemma UnorderedVotesShallow(conf: Confirmations) returns (w: World, fetched: Event, sent: Event)
    requires !Ordered(conf)
    ensures Faithful(w) && AlwaysReports(w, conf)
    ensures conf.large >= 0 ==> forall t: nat :: w.height(t) > 0
    ensures [fetched, sent] <= Run(w, FIRST, FROM_ZERO).st.trace
    ensures sent.Sent? && forall t: nat :: w.emitted(t, sent.ballot.log)
    ensures fetched == EventFetched(conf) && fetched.page.Covers(sent.ballot.log.blockNumber)
    ensures sent.ballot.cur - sent.ballot.log.blockNumber < sent.ballot.terms.Depth(sent.ballot.log.amount)
  {
    hide Run;
    var limits := if conf.medium > conf.large then Limits(true, 1, 2) else Limits(true, 2, 3);
    w := OneEventWorld(conf, limits, Mined);
    fetched, sent := EventFetched(conf), EventSent(conf, limits, Mined);
    OneEventRun(conf, limits, Mined);
  }

  lemma ShallowInHistory(w: World, sent: Event)
    requires sent in Run(w, FIRST, FROM_ZERO).st.trace && sent.Sent?
    requires sent.ballot.cur - sent.ballot.log.blockNumber < sent.ballot.terms.Depth(sent.ballot.log.amount)
    ensures !VotesAreDeep(w, FIRST, FROM_ZERO, 1) && Fresh(FIRST)
  {
    hide Run;
    assert History(w, FIRST, FROM_ZERO, 0) == FIRST;
    assert sent in History(w, FIRST, FROM_ZERO, 1).trace;
  }

  // Main result: small and medium confirmations of at most large is exactly what it takes for every
  // vote of every ERC20 history, in every world whose contract reports these confirmations, to be as
  // deep as the tier of its amount requires.
  lemma VotesAreDeepExactlyWhenOrdered(conf: Confirmations)
    ensures Ordered(conf) <==>
              forall w: World, st: State, cfg: Config, runs: nat |
                cfg.kind == Erc20 && Faithful(w) && AlwaysReports(w, conf) && Fresh(st) ::
                VotesAreDeep(w, st, cfg, runs)
  {
    hide VotesAreDeep, Faithful, AlwaysReports, Fresh;
    if Ordered(conf) {
      forall w: World, st: State, cfg: Config, runs: nat |
        cfg.kind == Erc20 && Faithful(w) && AlwaysReports(w, conf) && Fresh(st)
        ensures VotesAreDeep(w, st, cfg, runs)
      {
        OrderedVotesAreDeep(w, st, cfg, runs, conf);
      }
    } else {
      var w, fetched, sent := UnorderedVotesShallow(conf);
      assert [fetched, sent][1] == sent;
      ShallowInHistory(w, sent);
    }
  }

  // ---------------------------------------------------------------- a single tier

  ghost predicate V0World(w: World, chainId: int) {
    && (forall t: nat :: w.confirmations(t) == V0Confirmations(chainId))
    && (forall t: nat, token: Address :: w.limits(t, token) == V0_LIMITS)
  }

  ghost predicate NoSecondPass(trace: seq<Event>) {
    forall e | e in trace && e.Fetched? :: !e.scan.Shallow?
  }

  lemma {:induction false} V0PagesAreDeep(w: World, st: State, scan: Scan, pages: seq<Page>)
    requires scan.Deep? && NoSecondPass(st.trace)
    ensures NoSecondPass(FetchPages(w, st, scan, pages).st.trace)
    decreases pages
  {
    hide ProcessLogs;
    if pages == [] || !w.fate(st.clock).Answers? {
    } else {
      var noted := Note(st.(clock := st.clock + 1), Fetched(st.clock, scan, pages[0]));
      var processed := ProcessLogs(w, noted, scan, w.logs(st.clock, pages[0].from, pages[0].to));
      if processed.Done? {
        var saved := SaveProgress(w, processed.st, scan, pages[0].to);
        if saved.Done? {
          V0PagesAreDeep(w, saved.st, scan, pages[1..]);
        }
      }
    }
  }

  lemma V0TwoPasses(w: World, st: State, cfg: Config, cur: int, conf: Confirmations)
    requires conf.small == conf.large && NoSecondPass(st.trace)
    ensures NoSecondPass(TwoPasses(w, st, cfg, cur, conf).st.trace)
  {
    hide FetchPages, Pages, NoSecondPass;
    var pages := Pages(LastProcessed(w, st, cfg) + 1, cur - conf.large);
    V0PagesAreDeep(w, Call(w, Call(w, st).st).st, Deep(cur, conf), pages);
  }

  lemma {:induction false} V0NeverScansTwice(w: World, st: State, cfg: Config, runs: nat, chainId: int)
    requires V0World(w, chainId) && cfg.kind == Erc20 && NoSecondPass(st.trace)
    ensures NoSecondPass(History(w, st, cfg, runs).trace)
    decreases runs
  {
    hide TwoPasses, NoSecondPass, VotingOnly, Extends;
    if runs == 0 {
    } else {
      V0NeverScansTwice(w, st, cfg, runs - 1, chainId);
      var before := History(w, st, cfg, runs - 1);
      var synced := CheckSynced(w, Call(w, before).st).st;
      V0TwoPasses(w, Call(w, synced).st, cfg, w.height(before.clock), w.confirmations(synced.clock));
    }
  }

  // With one tier every amount is large, the second pass is empty, and all votes have one depth.
  lemma V0HasOneTier(w: World, st: State, cfg: Config, runs: nat, chainId: int, e: Event)
    requires Faithful(w) && V0World(w, chainId) && cfg.kind == Erc20 && Fresh(st)
    requires e in History(w, st, cfg, runs).trace
    ensures e.Sent? ==> e.ballot.cur - e.ballot.log.blockNumber >= V0Depth(chainId)
    ensures !(e.Fetched? && e.scan.Shallow?)
  {
    hide History, Attempt, Recorded, Lost, SameVote;
    HistoryIsSound(w, st, cfg, runs);
    V0NeverScansTwice(w, st, cfg, runs, chainId);
    if e.Sent? {
      var i :| 0 <= i < |History(w, st, cfg, runs).trace| && History(w, st, cfg, runs).trace[i] == e;
      var a, b := SentInSomeAttempt(w, st, cfg, runs, i);
      assert Justified(w, e);
    }
  }

  // ---------------------------------------------------------------- deferral

  // Every event put off between `a` and `b` lies in [low, high].
  ghost predicate PutsOffWithin(a: State, b: State, low: int, high: int) {
    && a.trace <= b.trace
    && forall i | |a.trace| <= i < |b.trace| && b.trace[i].Deferred? :: low <= b.trace[i].log.blockNumber <= high
  }

  lemma CastPutsOffNothing(w: World, st: State, cur: int, terms: Terms, log: Log)
    ensures PutsOffWithin(st, CastVote(w, st, cur, terms, log).st, 1, 0)
  {
  }

  lemma OnePutsOffItself(w: World, st: State, scan: Scan, log: Log)
    requires scan.Deep? || scan.Shallow?
    ensures var out := ProcessErc20Log(w, st, scan, log).st;
            && PutsOffWithin(st, out, log.blockNumber, log.blockNumber)
            && (scan.Deep? ==> PutsOffWithin(st, out, 1, 0))
  {
    hide VotingOnly, CastVote;
    var st1 := Call(w, st).st;
    var st2 := Call(w, st1).st;
    var limits := w.limits(st1.clock, LimitsToken(log, w.sideToken(st.clock, log)));
    CastPutsOffNothing(w, st2, scan.cur, Tiered(scan.conf, limits), log);
  }

  lemma {:induction false} EachPutsOffWithin(w: World, st: State, scan: Scan, logs: seq<Log>, low: int, high: int)
    requires scan.Deep? || scan.Shallow?
    requires forall log | log in logs :: low <= log.blockNumber <= high
    ensures var out := ProcessEach(w, st, scan, logs).st;
            PutsOffWithin(st, out, low, high) && (scan.Deep? ==> PutsOffWithin(st, out, 1, 0))
    decreases logs
  {
    hide VotingOnly, ProcessErc20Log;
    if logs == [] {
    } else {
      var one := ProcessErc20Log(w, st, scan, logs[0]);
      OnePutsOffItself(w, st, scan, logs[0]);
      if one.Done? {
        EachPutsOffWithin(w, one.st, scan, logs[1..], low, high);
      }
    }
  }

  lemma PagePutsOffWithin(w: World, st: State, scan: Scan, page: Page, low: int, high: int)
    requires Faithful(w) && (scan.Deep? || scan.Shallow?)
    requires low <= page.from && page.to <= high
    ensures var noted := Note(st.(clock := st.clock + 1), Fetched(st.clock, scan, page));
            var out := ProcessLogs(w, noted, scan, w.logs(st.clock, page.from, page.to)).st;
            PutsOffWithin(st, out, low, high) && (scan.Deep? ==> PutsOffWithin(st, out, 1, 0))
  {
    hide VotingOnly, ProcessEach;
    var noted := Note(st.(clock := st.clock + 1), Fetched(st.clock, scan, page));
    var logs := w.logs(st.clock, page.from, page.to);
    forall log | log in logs
      ensures low <= log.blockNumber <= high
    {
      FetchedEventIsReal(w, st.clock, page, log);
    }
    EachPutsOffWithin(w, Call(w, noted).st, scan, logs, low, high);
  }

  lemma {:induction false} PagesPutOffWithin(w: World, st: State, scan: Scan, pages: seq<Page>, low: int, high: int)
    requires Faithful(w) && (scan.Deep? || scan.Shallow?)
    requires forall page | page in pages :: low <= page.from && page.to <= high
    ensures var out := FetchPages(w, st, scan, pages).st;
            PutsOffWithin(st, out, low, high) && (scan.Deep? ==> PutsOffWithin(st, out, 1, 0))
    decreases pages
  {
    hide VotingOnly, ProcessLogs;
    if pages == [] || !w.fate(st.clock).Answers? {
    } else {
      var page := pages[0];
      var noted := Note(st.(clock := st.clock + 1), Fetched(st.clock, scan, page));
      PagePutsOffWithin(w, st, scan, page, low, high);
      var processed := ProcessLogs(w, noted, scan, w.logs(st.clock, page.from, page.to));
      if processed.Done? {
        var saved := if scan.Shallow? then processed else SaveProgress(w, processed.st, scan, page.to);
        if saved.Done? {
          PagesPutOffWithin(w, saved.st, scan, pages[1..], low, high);
        }
      }
    }
  }

  lemma ScanPutsOffWithin(w: World, st: State, scan: Scan, from: int, to: int)
    requires Faithful(w) && (scan.Deep? || scan.Shallow?)
    ensures var out := GetLogsAndProcess(w, st, scan, from, to).st;
            PutsOffWithin(st, out, from, to) && (scan.Deep? ==> PutsOffWithin(st, out, 1, 0))
  {
    hide Pages, FetchPages;
    PagesEndInRange(from, to);
    PagesPutOffWithin(w, Call(w, st).st, scan, Pages(from, to), from, to);
  }

  // With at most one block pending the first pass saves nothing.
  lemma FewBlocksSaveNothing(w: World, st: State, cfg: Config, cur: int, conf: Confirmations)
    requires LastProcessed(w, st, cfg) + 1 >= cur - conf.large
    ensures TwoPasses(w, st, cfg, cur, conf).st.lastBlock == st.lastBlock
  {
    SecondScanSavesNothing(w, Call(w, st).st, Shallow(cur, conf), cur - conf.large, cur - conf.small);
  }

  // What a completed run puts off is above the height it leaves persisted, with these exceptions.
  // The second pass scans the block `toBlock` again, which the first pass has just dealt with and
  // saved; and it scans blocks an earlier run persisted, when the target has fallen since, or when
  // the file could not be read and the scan set out from the configured block.
  lemma PutOffIsAboveProgressExactlyWhen(w: World, st: State, cfg: Config, cur: int, conf: Confirmations, i: nat)
    requires Faithful(w) && TwoPasses(w, st, cfg, cur, conf).Done?
    requires |st.trace| <= i < |TwoPasses(w, st, cfg, cur, conf).st.trace|
    requires TwoPasses(w, st, cfg, cur, conf).st.trace[i].Deferred?
    ensures var out := TwoPasses(w, st, cfg, cur, conf).st;
            var base := LastProcessed(w, st, cfg);
            var toBlock := cur - conf.large;
            var block := out.trace[i].log.blockNumber;
            && toBlock <= block <= cur - conf.small
            && (base + 1 < toBlock ==> (block > Progress(out, cfg) <==> block != toBlock))
            && (base + 1 >= toBlock ==> (block > Progress(out, cfg) <==> block > Progress(st, cfg)))
            && (base + 1 == toBlock && w.readable(st.clock) ==> block > Progress(out, cfg))
  {
    hide GetLogsAndProcess, Pages, Fetches, Saves;
    var base := LastProcessed(w, st, cfg);
    var toBlock, newToBlock := cur - conf.large, cur - conf.small;
    var st1 := Call(w, st).st;
    var first := GetLogsAndProcess(w, st1, Deep(cur, conf), base + 1, toBlock).st;
    ScanPutsOffWithin(w, st1, Deep(cur, conf), base + 1, toBlock);
    ScanPutsOffWithin(w, first, Shallow(cur, conf), toBlock, newToBlock);
    LagsByAtMostOne(w, st, cfg, cur, conf);
    if base + 1 >= toBlock {
      FewBlocksSaveNothing(w, st, cfg, cur, conf);
    }
  }

  // The first exception happens: at height 10 with confirmations 1, 2 and 3, a large amount in block
  // 7 is processed and saved by the first pass, then put off by the second.
  const LARGE_LOG := Log(7, "", 0, "", 100, "")
  const ONE_TWO_THREE := Confirmations(1, 2, 3)

  function LargeLogWorld(): World {
    CalmWorld(Limits(true, 10, 50)).(
      height := _ => 10,
      confirmations := _ => ONE_TWO_THREE,
      emitted := (_, log) => log == LARGE_LOG,
      logs := (_, from, to) => if from <= 7 <= to then [LARGE_LOG] else [],
      processed := (_, _) => true)
  }

  lemma FirstPassSavesSeven() returns (st: State)
    ensures FetchPages(LargeLogWorld(), FIRST.(clock := 6), Deep(10, ONE_TWO_THREE), [Page(1, 7)]) == Done(st)
    ensures st.clock == 12 && st.lastBlock == Some(7) && |st.trace| == 3
  {
    hide ProcessEach, VotingOnly;
    var w, deep := LargeLogWorld(), Deep(10, ONE_TWO_THREE);
    var a := State(7, None, {}, None, [Fetched(6, deep, Page(1, 7))]);
    assert a == Note(FIRST.(clock := 7), Fetched(6, deep, Page(1, 7)));
    var b := Note(a.(clock := 11), FoundProcessed(10, LARGE_LOG));
    assert ProcessErc20Log(w, a.(clock := 8), deep, LARGE_LOG) == Done(b);
    SingleLog(w, a, deep, LARGE_LOG);
    st := Note(b.(clock := 12, lastBlock := Some(7)), Saved(11, 7));
    assert SaveProgress(w, b, deep, 7) == Done(st);
    assert FetchPages(w, st, deep, [Page(1, 7)][1..]) == Done(st);
  }

  lemma SecondPassPutsSevenOff(st: State)
    requires st.clock == 13
    ensures var out := FetchPages(LargeLogWorld(), st, Shallow(10, ONE_TWO_THREE), [Page(7, 9)]);
            && out.Done? && out.st.lastBlock == st.lastBlock && |out.st.trace| == |st.trace| + 2
            && out.st.trace[|st.trace| + 1]
               == Deferred(16, LARGE_LOG, Shallow(10, ONE_TWO_THREE), Limits(true, 10, 50))
  {
    hide ProcessEach, VotingOnly;
    var w, shallow := LargeLogWorld(), Shallow(10, ONE_TWO_THREE);
    var d := Note(st.(clock := 14), Fetched(13, shallow, Page(7, 9)));
    assert ProcessErc20Log(w, d.(clock := 15), shallow, LARGE_LOG)
        == Done(Note(d.(clock := 17), Deferred(16, LARGE_LOG, shallow, Limits(true, 10, 50))));
    SingleLog(w, d, shallow, LARGE_LOG);
    assert [Page(7, 9)][1..] == [];
  }

  lemma LargeLogPasses()
    ensures var out := TwoPasses(LargeLogWorld(), FIRST.(clock := 4), FROM_ZERO, 10, ONE_TWO_THREE);
            && out.Done? && out.st.lastBlock == Some(7) && |out.st.trace| == 5
            && out.st.trace[4] == Deferred(16, LARGE_LOG, Shallow(10, ONE_TWO_THREE), Limits(true, 10, 50))
  {
    hide FetchPages, Pages, VotingOnly;
    PagePartition(1, 7);
    PagePartition(7, 9);
    assert Pages(1, 7) == [Page(1, 7)] && Pages(7, 9) == [Page(7, 9)];
    var saved := FirstPassSavesSeven();
    SecondPassPutsSevenOff(saved.(clock := 13));
  }

  // The first run in that world, from no files, completes and does this.
  lemma PutOffAtProgressHappens()
    ensures Faithful(LargeLogWorld()) && AlwaysReports(LargeLogWorld(), ONE_TWO_THREE) && Ordered(ONE_TWO_THREE)
    ensures var run := Run(LargeLogWorld(), FIRST, FROM_ZERO);
            && run.Done? && |run.st.trace| == 5 && run.st.trace[4].Deferred?
            && run.st.trace[4].log.blockNumber == Progress(run.st, FROM_ZERO)
  {
    hide TwoPasses;
    LargeLogPasses();
    ReachesPasses(LargeLogWorld(), FIRST);
  }
}
