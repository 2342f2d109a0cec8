/**
 How many calls an attempt makes.  Each entry of a trace stands for a fixed number of calls, and an
 attempt that completes makes these, and a few to set out, and no others; all of them were answered.
 */
module RelayCalls {
  import opened Network
  import opened Paging
  import opened Relay
  import opened RelayProgress
  import opened RelayRising
  import opened RelayOutcome

  // The calls the ERC20 federator makes for an event before it asks about its id: mapping and limits.
  function CallsBefore(kind: Kind): nat {
    if kind == Erc20 then 2 else 0
  }

  // The calls an entry stands for.  A page costs two, one of them for the membership or, for
  // heartbeats, the height of the side chain.  After a send that was mined there is one more call, for
  // the metric; after one that was refused there are two, the first to write the file.
  function CallsFor(kind: Kind, e: Event): nat {
    match e
    case Fetched(_, _, _) => 2
    case Saved(_, _) => 1
    case Deferred(_, _, _, _) => CallsBefore(kind)
    case FoundProcessed(_, _) => CallsBefore(kind) + 1
    case FoundVoted(_, _) => CallsBefore(kind) + 2
    case FoundReverted(_, _) => CallsBefore(kind) + 3
    case Sent(_, _, delivery) => CallsBefore(kind) + if delivery.Mined? then 5 else 6
    case TooShallow(_, _) => 0
    case NotAllowed(_, _) => CallsBefore(kind)
    case NotMember(_) => 0
  }

  function CallsOf(kind: Kind, trace: seq<Event>): nat {
    if trace == [] then 0
    else CallsOf(kind, trace[..|trace| - 1]) + CallsFor(kind, trace[|trace| - 1])
  }

  lemma OneMoreEntry(kind: Kind, trace: seq<Event>, e: Event)
    ensures CallsOf(kind, trace + [e]) == CallsOf(kind, trace) + CallsFor(kind, e)
  {
    assert (trace + [e])[..|trace|] == trace;
  }

  // From `a` to `b` the calls are those of the new entries, and `more`.
  ghost predicate Took(kind: Kind, a: State, b: State, more: int) {
    b.clock - a.clock == CallsOf(kind, b.trace) - CallsOf(kind, a.trace) + more
  }

  function KindOf(scan: Scan): Kind {
    match scan
    case Deep(_, _) => Erc20
    case Shallow(_, _) => Erc20
    case Nft(_) => NonFungible
    case Beat(_) => HeartbeatReader
  }

  // ---------------------------------------------------------------- events and pages

  lemma CastTakes(w: World, kind: Kind, st: State, cur: int, terms: Terms, log: Log)
    requires CastVote(w, st, cur, terms, log).Done?
    ensures Took(kind, st, CastVote(w, st, cur, terms, log).st, 0 - CallsBefore(kind))
  {
    hide VotingOnly, Extends, CallsOf;
    var out := CastVote(w, st, cur, terms, log).st;
    var e := out.trace[|st.trace|];
    assert out.trace == st.trace + [e];
    OneMoreEntry(kind, st.trace, e);
  }

  lemma EventTakes(w: World, st: State, scan: Scan, log: Log)
    requires !scan.Beat? && (scan.Nft? ==> st.chainId.Some?)
    ensures var out := if scan.Nft? then ProcessNftLog(w, st, scan, log) else ProcessErc20Log(w, st, scan, log);
            out.Done? ==> Took(KindOf(scan), st, out.st, 0)
  {
    hide VotingOnly, Extends, CallsOf, CastVote;
    if scan.Nft? {
      var needed := NftConfirmations(st.chainId.value);
      OneMoreEntry(KindOf(scan), st.trace, TooShallow(log, scan));
      if CastVote(w, st, scan.cur, Flat(needed), log).Done? {
        CastTakes(w, KindOf(scan), st, scan.cur, Flat(needed), log);
      }
    } else {
      var st2 := Call(w, Call(w, st).st).st;
      var limits := w.limits(st.clock + 1, LimitsToken(log, w.sideToken(st.clock, log)));
      OneMoreEntry(KindOf(scan), st.trace, Deferred(st.clock + 1, log, scan, limits));
      if CastVote(w, st2, scan.cur, Tiered(scan.conf, limits), log).Done? {
        CastTakes(w, KindOf(scan), st2, scan.cur, Tiered(scan.conf, limits), log);
      }
    }
  }

  lemma {:induction false} EachTakes(w: World, st: State, scan: Scan, logs: seq<Log>)
    requires !scan.Beat? && (scan.Nft? ==> st.chainId.Some?)
    requires ProcessEach(w, st, scan, logs).Done?
    ensures Took(KindOf(scan), st, ProcessEach(w, st, scan, logs).st, 0)
    decreases logs
  {
    hide VotingOnly, CallsOf, ProcessNftLog, ProcessErc20Log;
    if logs == [] {
    } else {
      var one := if scan.Nft? then ProcessNftLog(w, st, scan, logs[0]) else ProcessErc20Log(w, st, scan, logs[0]);
      EventTakes(w, st, scan, logs[0]);
      EachTakes(w, one.st, scan, logs[1..]);
    }
  }

  lemma PageTakes(w: World, st: State, scan: Scan, page: Page)
    requires (scan.Nft? ==> st.chainId.Some?) && FetchPage(w, st, scan, page).Done?
    ensures Took(KindOf(scan), st, FetchPage(w, st, scan, page).st, 0)
  {
    hide VotingOnly, CallsOf, ProcessEach;
    var noted := Note(st.(clock := st.clock + 1), Fetched(st.clock, scan, page));
    var logs := w.logs(st.clock, page.from, page.to);
    var processed := ProcessLogs(w, noted, scan, logs).st;
    OneMoreEntry(KindOf(scan), st.trace, Fetched(st.clock, scan, page));
    OneMoreEntry(KindOf(scan), processed.trace, Saved(processed.clock, page.to));
    if !scan.Beat? {
      EachTakes(w, Call(w, noted).st, scan, logs);
    }
  }

  lemma {:induction false} PagesTake(w: World, st: State, scan: Scan, pages: seq<Page>)
    requires (scan.Nft? ==> st.chainId.Some?) && FetchPages(w, st, scan, pages).Done?
    ensures Took(KindOf(scan), st, FetchPages(w, st, scan, pages).st, 0)
    decreases pages
  {
    hide CallsOf, FetchPage;
    if pages == [] {
    } else {
      PageTakes(w, st, scan, pages[0]);
      PagesTake(w, FetchPage(w, st, scan, pages[0]).st, scan, pages[1..]);
    }
  }

  // A range that has pages costs one call more.
  function CallsForRange(from: int, to: int): nat {
    if from < to then 1 else 0
  }

  lemma ScanTakes(w: World, st: State, scan: Scan, from: int, to: int)
    requires (scan.Nft? ==> st.chainId.Some?) && GetLogsAndProcess(w, st, scan, from, to).Done?
    ensures Took(KindOf(scan), st, GetLogsAndProcess(w, st, scan, from, to).st, CallsForRange(from, to))
  {
    hide CallsOf, FetchPages, Pages;
    if from < to {
      PagesTake(w, Call(w, st).st, scan, Pages(from, to));
    }
  }

  // ---------------------------------------------------------------- an attempt

  // Besides those of its entries, an attempt that completes makes these calls: the height, one or two
  // for the nodes' sync state, the confirmations or the chain id, the progress file, and one for each
  // range it scans.
  function CallsToSetOut(w: World, st: State, cfg: Config): nat {
    var from := LastProcessed(w, st.(clock := ReadsFileAt(st, cfg)), cfg) + 1;
    var toBlock := SavesUpTo(w, st, cfg);
    match cfg.kind
    case Erc20 =>
      var newToBlock := w.height(st.clock) - w.confirmations(st.clock + 3).small;
      5 + CallsForRange(from, toBlock) + CallsForRange(toBlock, newToBlock)
    case NonFungible => (if st.chainId.Some? then 4 else 5) + CallsForRange(from, toBlock)
    case HeartbeatReader => 2
  }

  lemma TwoPassesTake(w: World, st: State, cfg: Config, cur: int, conf: Confirmations)
    requires TwoPasses(w, st, cfg, cur, conf).Done?
    ensures var from := LastProcessed(w, st, cfg) + 1;
            Took(Erc20, st, TwoPasses(w, st, cfg, cur, conf).st,
                 1 + CallsForRange(from, cur - conf.large) + CallsForRange(cur - conf.large, cur - conf.small))
  {
    hide CallsOf, GetLogsAndProcess;
    var from, toBlock, newToBlock := LastProcessed(w, st, cfg) + 1, cur - conf.large, cur - conf.small;
    var st1 := Call(w, st).st;
    ScanTakes(w, st1, Deep(cur, conf), from, toBlock);
    var first := GetLogsAndProcess(w, st1, Deep(cur, conf), from, toBlock).st;
    ScanTakes(w, first, Shallow(cur, conf), toBlock, newToBlock);
  }

  lemma OnePassTakes(w: World, st: State, cfg: Config, scan: Scan, to: int)
    requires (scan.Nft? && st.chainId.Some?) || scan.Beat?
    requires OnePass(w, st, cfg, scan, to).Done?
    ensures var from := LastProcessed(w, st, cfg) + 1;
            Took(KindOf(scan), st, OnePass(w, st, cfg, scan, to).st,
                 1 + if scan.Beat? then 0 else CallsForRange(from, to))
  {
    hide CallsOf, GetLogsAndProcess, FetchPages, Pages;
    var from := LastProcessed(w, st, cfg) + 1;
    var st1 := Call(w, st).st;
    if scan.Beat? {
      PagesTake(w, st1, scan, Pages(from, to));
    } else {
      ScanTakes(w, st1, scan, from, to);
    }
  }

  // Main result: an attempt that completes has made exactly the calls its entries stand for and those
  // to set out, and each of them was answered: no failure is passed over, not even that of a metric.
  lemma CompletedAttemptTakes(w: World, st: State, cfg: Config)
    requires Attempt(w, st, cfg).Done?
    ensures Took(cfg.kind, st, Attempt(w, st, cfg).st, CallsToSetOut(w, st, cfg))
    ensures Answered(w, st.clock, Attempt(w, st, cfg).st.clock)
  {
    hide CallsOf, TwoPasses, OnePass, Answered;
    var cur := w.height(st.clock);
    CompletedAttemptWasAnswered(w, st, cfg);
    match cfg.kind
    case Erc20 =>
      TwoPassesTake(w, st.(clock := st.clock + 4), cfg, cur, w.confirmations(st.clock + 3));
    case NonFungible =>
      var st3 := CheckSynced(w, GetCurrentChainId(w, Call(w, st).st).st).st;
      OnePassTakes(w, st3, cfg, Nft(cur), cur - NftConfirmations(st3.chainId.value));
    case HeartbeatReader =>
      OnePassTakes(w, Call(w, st).st, cfg, Beat(cur), cur);
  }

  // Only the choice of the starting block finds that there is nothing to do.
  lemma NeverIdleOnceScanning(w: World, st: State, cfg: Config)
    requires Attempt(w, st, cfg) == Stopped(Attempt(w, st, cfg).st, Idle)
    ensures Attempt(w, st, cfg).st.clock <= ReadsFileAt(st, cfg) + 1
  {
    hide GetLogsAndProcess, FetchPages, Pages;
    var cur := w.height(st.clock);
    match cfg.kind
    case Erc20 =>
      var st4, conf := st.(clock := st.clock + 4), w.confirmations(st.clock + 3);
      var from := LastProcessed(w, st4, cfg) + 1;
      var st5 := Call(w, st4).st;
      var first := GetLogsAndProcess(w, st5, Deep(cur, conf), from, cur - conf.large);
      NeverIdle(w, st5, Deep(cur, conf), from, cur - conf.large);
      NeverIdle(w, first.st, Shallow(cur, conf), cur - conf.large, cur - conf.small);
    case NonFungible =>
      var st3 := CheckSynced(w, GetCurrentChainId(w, Call(w, st).st).st).st;
      if st3.chainId.Some? {
        var from, to := LastProcessed(w, st3, cfg) + 1, cur - NftConfirmations(st3.chainId.value);
        NeverIdle(w, Call(w, st3).st, Nft(cur), from, to);
      }
    case HeartbeatReader =>
      var st1 := Call(w, st).st;
      PagesNeverIdle(w, Call(w, st1).st, Beat(cur), Pages(LastProcessed(w, st1, cfg) + 1, cur));
  }

  // An attempt that finds nothing to do has looked at the progress file only if some target is
  // positive.
  lemma IdleAttemptTakes(w: World, st: State, cfg: Config)
    requires Attempt(w, st, cfg) == Stopped(Attempt(w, st, cfg).st, Idle)
    ensures var anyTarget := SavesUpTo(w, st, cfg) > 0
              || (cfg.kind == Erc20 && w.height(st.clock) > w.confirmations(st.clock + 3).small);
            Attempt(w, st, cfg).st.clock == ReadsFileAt(st, cfg) + if anyTarget then 1 else 0
  {
    hide GetLogsAndProcess, FetchPages, Pages;
    NeverIdleOnceScanning(w, st, cfg);
  }
}
