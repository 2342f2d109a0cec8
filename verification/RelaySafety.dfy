/**
 Safety of every vote a federator ever sends.  `Sound` is an invariant of all histories: each vote
 is justified by what the chains answered, none is sent twice unless the first one was lost, and
 the NFT federator never steps over an event.
 */
module RelaySafety {
  import opened Network
  import opened Paging
  import opened Relay

  // The order of confirmations the depth guarantee rests on.
  predicate Ordered(conf: Confirmations) {
    conf.small <= conf.large && conf.medium <= conf.large
  }

  ghost predicate ReportedHeight(w: World, before: nat, cur: int) {
    exists t: nat :: t < before && w.height(t) == cur
  }

  ghost predicate ReportedConfirmations(w: World, before: nat, conf: Confirmations) {
    exists t: nat :: t < before && w.confirmations(t) == conf
  }

  ghost predicate ReportedEvent(w: World, before: nat, log: Log) {
    exists t: nat :: t < before && w.emitted(t, log)
  }

  ghost predicate ReportedMember(w: World, before: nat) {
    exists t: nat :: t < before && w.member(t)
  }

  // At tick `s` the event's token was mapped, and at `t` the limits were asked for: of the side token
  // when there is one, else of the original token, which was allowed.
  predicate LimitsReportedAt(w: World, s: nat, t: nat, log: Log, limits: Limits) {
    if w.sideToken(s, log) == ZERO_ADDRESS
    then limits.allowed && limits == w.limits(t, log.tokenAddress)
    else limits == w.limits(t, w.sideToken(s, log))
  }

  ghost predicate ReportedLimits(w: World, before: nat, log: Log, limits: Limits) {
    exists s: nat, t: nat :: s < t < before && LimitsReportedAt(w, s, t, log, limits)
  }

  // What the terms of a vote rest on was reported before tick `before`.
  ghost predicate ReportedTerms(w: World, before: nat, log: Log, terms: Terms) {
    match terms
    case Tiered(conf, limits) => ReportedConfirmations(w, before, conf) && ReportedLimits(w, before, log, limits)
    case Flat(confirmations) => exists t: nat :: t < before && confirmations == NftConfirmations(w.netId(t))
  }

  // The depth rule: an event may be voted only when buried as deep as its amount requires.
  predicate DeepEnough(cur: int, terms: Terms, log: Log) {
    (terms.Tiered? ==> Ordered(terms.conf)) ==> cur - log.blockNumber >= terms.Depth(log.amount)
  }

  // A vote is justified: a real event, really that deep, neither processed nor voted when asked, and
  // sent by a member.
  ghost predicate Justified(w: World, e: Event)
    requires e.Sent?
  {
    var b := e.ballot;
    && b.tx == w.txId(b.log)
    && ReportedEvent(w, e.at, b.log)
    && ReportedHeight(w, e.at, b.cur)
    && ReportedTerms(w, e.at, b.log, b.terms)
    && ReportedMember(w, e.at)
    && DeepEnough(b.cur, b.terms, b.log)
    && b.processedAt < b.votedAt < e.at
    && !w.processed(b.processedAt, b.tx)
    && !w.voted(b.votedAt, b.tx)
  }

  // The outcome of a vote was lost: the process never learnt it, or could not write down that it
  // was refused, or the destination chain later denied both having the vote and having acted on it.
  ghost predicate Lost(w: World, e: Event)
    requires e.Sent?
  {
    match e.delivery
    case Mined =>
      exists p: nat, v: nat ::
        e.at < p && e.at < v && !w.processed(p, e.ballot.tx) && !w.voted(v, e.ballot.tx)
    case Refused => w.fate(e.at + 1) != Answers
    case LostByThrow => true
    case LostByHalt => true
  }

  predicate SameVote(e: Event, f: Event) {
    e.Sent? && f.Sent? && e.ballot.tx == f.ballot.tx
  }

  // The reverted file holds every refused vote whose recording was not interrupted.
  predicate Recorded(w: World, st: State, e: Event)
    requires e.Sent?
  {
    e.delivery.Refused? && w.fate(e.at + 1).Answers? ==> e.ballot.tx in st.reverted
  }

  // A reason to put an event off: its amount is large, or it is not as deep as its tier requires.
  predicate MustWait(cur: int, terms: Terms, log: Log)
    requires terms.Tiered?
  {
    log.amount >= terms.limits.largeAmount || cur - log.blockNumber < terms.Depth(log.amount)
  }

  ghost predicate Answered(w: World, st: State, at: nat) {
    at < st.clock && w.fate(at).Answers?
  }

  // A page that ends at `height`, not one of the second pass, had been fetched before tick `at`.
  ghost predicate PageFetched(st: State, at: nat, height: int) {
    exists e :: e in st.trace && e.Fetched? && e.at < at && !e.scan.Shallow? && e.page.to == height
  }

  // What each entry of a trace says is so.
  ghost predicate Truthful(w: World, st: State, e: Event) {
    match e
    case Sent(at, _, _) => Answered(w, st, at) && Justified(w, e) && Recorded(w, st, e)
    case FoundProcessed(at, log) => Answered(w, st, at) && w.processed(at, w.txId(log))
    case FoundVoted(at, log) => Answered(w, st, at) && w.voted(at, w.txId(log))
    case FoundReverted(at, log) => Answered(w, st, at) && w.txId(log) in st.reverted
    case NotAllowed(at, log) =>
      && Answered(w, st, at)
      && at > 0 && w.sideToken(at - 1, log) == ZERO_ADDRESS && !w.limits(at, log.tokenAddress).allowed
    case NotMember(at) => Answered(w, st, at) && !w.member(at)
    case Deferred(at, log, scan, limits) =>
      && Answered(w, st, at)
      && scan.Shallow?
      && ReportedEvent(w, at, log)
      && ReportedHeight(w, at, scan.cur)
      && ReportedConfirmations(w, at, scan.conf)
      && at > 0 && LimitsReportedAt(w, at - 1, at, log, limits)
      && MustWait(scan.cur, Tiered(scan.conf, limits), log)
    case TooShallow(_, _) => false
    case Fetched(at, scan, _) => Answered(w, st, at) && ReportedHeight(w, at, scan.cur)
    case Saved(at, height) => Answered(w, st, at) && PageFetched(st, at, height)
  }

  // A remembered chain id was reported.
  ghost predicate MemoTrue(w: World, st: State) {
    st.chainId.Some? ==> exists t: nat :: t < st.clock && w.netId(t) == st.chainId.value
  }

  ghost predicate Sound(w: World, st: State) {
    && MemoTrue(w, st)
    && (forall e | e in st.trace :: Truthful(w, st, e))
    && (forall i, j | 0 <= i < j < |st.trace| && SameVote(st.trace[i], st.trace[j]) :: Lost(w, st.trace[i]))
  }

  // ---------------------------------------------------------------- one act

  // An act that sends nothing keeps soundness.
  lemma SilentStep(w: World, a: State, b: State)
    requires Sound(w, a) && a.clock <= b.clock && a.reverted <= b.reverted
    requires b.chainId == a.chainId || MemoTrue(w, b)
    requires || b.trace == a.trace
             || exists e: Event :: b.trace == a.trace + [e] && !e.Sent? && Truthful(w, b, e)
    ensures Sound(w, b)
  {
  }

  // Sending keeps soundness, provided the file is written whenever it can be.
  lemma SendStep(w: World, a: State, b: State, e: Event)
    requires Sound(w, a) && a.clock <= b.clock && a.reverted <= b.reverted
    requires e.Sent? && b.trace == a.trace + [e] && Answered(w, b, e.at) && b.chainId == a.chainId
    requires Justified(w, e) && Recorded(w, b, e)
    requires a.clock <= e.ballot.processedAt && e.ballot.tx !in a.reverted
    ensures Sound(w, b)
  {
    forall i, j | 0 <= i < j < |b.trace| && SameVote(b.trace[i], b.trace[j])
      ensures Lost(w, b.trace[i])
    {
      var f := a.trace[i];
      if j < |a.trace| {
        assert SameVote(a.trace[i], a.trace[j]);
      } else {
        assert f in a.trace && Truthful(w, a, f);
      }
    }
    forall f | f in a.trace
      ensures Truthful(w, b, f)
    {
      assert Truthful(w, a, f);
    }
  }

  // ---------------------------------------------------------------- voting

  ghost predicate BallotFits(w: World, now: nat, b: Ballot) {
    && b.tx == w.txId(b.log)
    && ReportedEvent(w, now, b.log)
    && ReportedHeight(w, now, b.cur)
    && ReportedTerms(w, now, b.log, b.terms)
    && ReportedMember(w, now)
    && DeepEnough(b.cur, b.terms, b.log)
  }

  lemma VoteIsSound(w: World, st: State, asked: State, b: Ballot)
    requires Sound(w, asked) && Extends(asked, st) && st == asked.(clock := st.clock)
    requires BallotFits(w, asked.clock, b)
    requires asked.clock <= b.processedAt < b.votedAt < st.clock
    requires !w.processed(b.processedAt, b.tx) && !w.voted(b.votedAt, b.tx)
    ensures Sound(w, VoteTransaction(w, st, b).st)
  {
    var out := VoteTransaction(w, st, b);
    var st1 := Call(w, st).st;
    if w.fate(st.clock) != Answers || w.fate(st1.clock) != Answers || b.tx in st.reverted {
      SilentStep(w, asked, out.st);
    } else {
      SendStep(w, asked, out.st, Sent(st1.clock, b, w.delivery(st1.clock, b.tx)));
    }
  }

  lemma CastIsSound(w: World, st: State, cur: int, terms: Terms, log: Log)
    requires Sound(w, st) && BallotFits(w, st.clock, Ballot(log, w.txId(log), cur, terms, 0, 0))
    ensures Sound(w, CastVote(w, st, cur, terms, log).st)
  {
    var out := CastVote(w, st, cur, terms, log);
    var tx := w.txId(log);
    var st1 := Call(w, st).st;
    var st2 := Call(w, st1).st;
    if || w.fate(st.clock) != Answers || w.processed(st.clock, tx)
       || w.fate(st1.clock) != Answers || w.voted(st1.clock, tx)
    {
      SilentStep(w, st, out.st);
    } else {
      VoteIsSound(w, st2, st, Ballot(log, tx, cur, terms, st.clock, st1.clock));
    }
  }

  // ---------------------------------------------------------------- events and pages

  // The values a scan carries were really reported; an NFT scan already knows its chain.
  ghost predicate ScanFits(w: World, st: State, scan: Scan) {
    && ReportedHeight(w, st.clock, scan.cur)
    && (scan.Deep? || scan.Shallow? ==> ReportedConfirmations(w, st.clock, scan.conf))
    && (scan.Nft? ==> st.chainId.Some?)
  }

  // The highest block a scan may look at.
  function Ceiling(st: State, scan: Scan): int
    requires scan.Nft? ==> st.chainId.Some?
  {
    match scan
    case Deep(cur, conf) => cur - conf.large
    case Shallow(cur, conf) => cur - conf.small
    case Nft(cur) => cur - NftConfirmations(st.chainId.value)
    case Beat(cur) => cur
  }

  ghost predicate LogFits(w: World, st: State, scan: Scan, log: Log)
    requires scan.Nft? ==> st.chainId.Some?
  {
    ReportedEvent(w, st.clock, log) && log.blockNumber <= Ceiling(st, scan)
  }

  // What was reported stays reported.
  lemma FitsLater(w: World, a: State, b: State, scan: Scan)
    requires Extends(a, b) && ScanFits(w, a, scan)
    ensures ScanFits(w, b, scan) && Ceiling(b, scan) == Ceiling(a, scan)
    ensures forall log | LogFits(w, a, scan, log) :: LogFits(w, b, scan, log)
  {
  }

  // Any event inside the ceiling of its scan is deep enough, unless the second pass defers it.
  lemma CeilingIsDeep(scan: Scan, limits: Limits, log: Log)
    requires scan.Deep? || scan.Shallow?
    requires scan.Deep? ==> log.blockNumber <= scan.cur - scan.conf.large
    requires scan.Shallow? ==> log.blockNumber <= scan.cur - scan.conf.small
                               && !Defers(scan.cur, scan.conf, limits, log)
    ensures DeepEnough(scan.cur, Tiered(scan.conf, limits), log)
  {
  }

  lemma ProcessIsSound(w: World, st: State, scan: Scan, log: Log)
    requires Sound(w, st) && ScanFits(w, st, scan) && LogFits(w, st, scan, log) && !scan.Beat?
    requires ReportedMember(w, st.clock)
    ensures !scan.Nft? ==> Sound(w, ProcessErc20Log(w, st, scan, log).st)
    ensures scan.Nft? ==> Sound(w, ProcessNftLog(w, st, scan, log).st)
  {
    hide CastVote, VotingOnly;
    if scan.Nft? {
      CastIsSound(w, st, scan.cur, Flat(NftConfirmations(st.chainId.value)), log);
    } else {
      var out := ProcessErc20Log(w, st, scan, log);
      var st1 := Call(w, st).st;
      var st2 := Call(w, st1).st;
      var sideToken := w.sideToken(st.clock, log);
      var limits := w.limits(st1.clock, LimitsToken(log, sideToken));
      SilentStep(w, st, st2);
      if || w.fate(st.clock) != Answers || w.fate(st1.clock) != Answers
         || (sideToken == ZERO_ADDRESS && !limits.allowed)
         || (scan.Shallow? && Defers(scan.cur, scan.conf, limits, log))
      {
        SilentStep(w, st, out.st);
      } else {
        CeilingIsDeep(scan, limits, log);
        assert LimitsReportedAt(w, st.clock, st1.clock, log, limits);
        CastIsSound(w, st2, scan.cur, Tiered(scan.conf, limits), log);
      }
    }
  }

  lemma {:induction false} EachIsSound(w: World, st: State, scan: Scan, logs: seq<Log>)
    requires Sound(w, st) && ScanFits(w, st, scan) && !scan.Beat? && ReportedMember(w, st.clock)
    requires forall log | log in logs :: LogFits(w, st, scan, log)
    ensures Sound(w, ProcessEach(w, st, scan, logs).st)
    decreases logs
  {
    if logs == [] {
    } else {
      ProcessIsSound(w, st, scan, logs[0]);
      var out := if scan.Nft? then ProcessNftLog(w, st, scan, logs[0]) else ProcessErc20Log(w, st, scan, logs[0]);
      if out.Done? {
        FitsLater(w, st, out.st, scan);
        EachIsSound(w, out.st, scan, logs[1..]);
      }
    }
  }

  lemma LogsAreSound(w: World, st: State, scan: Scan, logs: seq<Log>)
    requires Sound(w, st) && ScanFits(w, st, scan)
    requires forall log | log in logs :: LogFits(w, st, scan, log)
    ensures Sound(w, ProcessLogs(w, st, scan, logs).st)
  {
    var st1 := Call(w, st).st;
    SilentStep(w, st, st1);
    FitsLater(w, st, st1, scan);
    if !scan.Beat? && w.fate(st.clock).Answers? && w.member(st.clock) {
      EachIsSound(w, st1, scan, logs);
    }
  }

  lemma FetchedEventIsReal(w: World, t: nat, page: Page, log: Log)
    requires Faithful(w) && log in w.logs(t, page.from, page.to)
    ensures w.emitted(t, log) && ReportedEvent(w, t + 1, log) && page.Covers(log.blockNumber)
  {
  }

  // A page's end is saved after the page was fetched.
  lemma SaveIsSound(w: World, noted: State, st: State, e: Event)
    requires Sound(w, st) && Extends(noted, st) && e in noted.trace && e.Fetched? && e.at < noted.clock
    ensures !e.scan.Shallow? ==> Sound(w, SaveProgress(w, st, e.scan, e.page.to).st)
  {
    hide Justified, Recorded, Lost, SameVote;
    var saved := SaveProgress(w, st, e.scan, e.page.to).st;
    if !e.scan.Shallow? {
      assert e in saved.trace;
      assert PageFetched(saved, st.clock, e.page.to);
      SilentStep(w, st, saved);
    }
  }

  ghost predicate PagesFit(st: State, scan: Scan, pages: seq<Page>)
    requires scan.Nft? ==> st.chainId.Some?
  {
    forall page | page in pages :: page.to <= Ceiling(st, scan)
  }

  lemma {:induction false} PagesAreSound(w: World, st: State, scan: Scan, pages: seq<Page>)
    requires Faithful(w) && Sound(w, st) && ScanFits(w, st, scan) && PagesFit(st, scan, pages)
    ensures Sound(w, FetchPages(w, st, scan, pages).st)
    decreases pages
  {
    hide Sound, ProcessLogs, VotingOnly;
    if pages == [] {
    } else {
      var page := pages[0];
      var st1 := Call(w, st).st;
      SilentStep(w, st, st1);
      if w.fate(st.clock) == Answers {
        var noted := Note(st1, Fetched(st.clock, scan, page));
        var logs := w.logs(st.clock, page.from, page.to);
        SilentStep(w, st1, noted);
        FitsLater(w, st, noted, scan);
        forall log | log in logs
          ensures LogFits(w, noted, scan, log)
        {
          FetchedEventIsReal(w, st.clock, page, log);
        }
        LogsAreSound(w, noted, scan, logs);
        var processed := ProcessLogs(w, noted, scan, logs);
        if processed.Done? {
          var saved := if scan.Shallow? then processed else SaveProgress(w, processed.st, scan, page.to);
          SaveIsSound(w, noted, processed.st, Fetched(st.clock, scan, page));
          if saved.Done? {
            FitsLater(w, st, saved.st, scan);
            PagesAreSound(w, saved.st, scan, pages[1..]);
          }
        }
      }
    }
  }

  lemma PagesEndInRange(from: int, to: int)
    ensures forall page | page in Pages(from, to) :: from <= page.from <= page.to <= to
  {
    hide Pages;
    PagePartition(from, to);
    var pages := Pages(from, to);
    forall k | 0 <= k < |pages|
      ensures from <= pages[k].from <= pages[k].to <= to
    {
      PageInRange(pages, from, to, k);
    }
  }

  // ---------------------------------------------------------------- runs

  lemma ScanIsSound(w: World, st: State, scan: Scan, from: int, to: int)
    requires Faithful(w) && Sound(w, st) && ScanFits(w, st, scan) && to <= Ceiling(st, scan)
    ensures Sound(w, GetLogsAndProcess(w, st, scan, from, to).st)
    ensures Sound(w, FetchPages(w, st, scan, Pages(from, to)).st)
  {
    hide Sound, FetchPages;
    var st1 := Call(w, st).st;
    SilentStep(w, st, st1);
    PagesEndInRange(from, to);
    PagesAreSound(w, st1, scan, Pages(from, to));
    PagesAreSound(w, st, scan, Pages(from, to));
  }

  lemma PassesAreSound(w: World, st: State, cur: int, conf: Confirmations, from: int)
    requires Faithful(w) && Sound(w, st) && ScanFits(w, st, Deep(cur, conf))
    ensures var first := GetLogsAndProcess(w, st, Deep(cur, conf), from, cur - conf.large);
            && Sound(w, first.st)
            && Sound(w, GetLogsAndProcess(w, first.st, Shallow(cur, conf), cur - conf.large, cur - conf.small).st)
  {
    hide Sound, GetLogsAndProcess, FetchPages, Pages;
    ScanIsSound(w, st, Deep(cur, conf), from, cur - conf.large);
    var first := GetLogsAndProcess(w, st, Deep(cur, conf), from, cur - conf.large);
    FitsLater(w, st, first.st, Deep(cur, conf));
    ScanIsSound(w, first.st, Shallow(cur, conf), cur - conf.large, cur - conf.small);
  }

  lemma TwoPassesAreSound(w: World, st: State, cfg: Config, cur: int, conf: Confirmations)
    requires Faithful(w) && Sound(w, st) && ScanFits(w, st, Deep(cur, conf))
    ensures Sound(w, TwoPasses(w, st, cfg, cur, conf).st)
  {
    hide Sound, GetLogsAndProcess, Pages;
    var st1 := Call(w, st).st;
    SilentStep(w, st, st1);
    FitsLater(w, st, st1, Deep(cur, conf));
    PassesAreSound(w, st1, cur, conf, LastProcessed(w, st, cfg) + 1);
  }

  lemma OnePassIsSound(w: World, st: State, cfg: Config, scan: Scan, toBlock: int)
    requires Faithful(w) && Sound(w, st) && ScanFits(w, st, scan) && toBlock <= Ceiling(st, scan)
    ensures Sound(w, OnePass(w, st, cfg, scan, toBlock).st)
  {
    hide Sound, GetLogsAndProcess, FetchPages, Pages;
    var st1 := Call(w, st).st;
    SilentStep(w, st, st1);
    ScanIsSound(w, st1, scan, LastProcessed(w, st, cfg) + 1, toBlock);
  }

  lemma Erc20AttemptIsSound(w: World, st: State, st1: State, cfg: Config, cur: int)
    requires Faithful(w) && Sound(w, st1) && ReportedHeight(w, st1.clock, cur)
    requires Call(w, st) == Done(st1) && cur == w.height(st.clock) && cfg.kind == Erc20
    ensures Sound(w, Attempt(w, st, cfg).st)
  {
    var synced := CheckSynced(w, st1);
    SilentStep(w, st1, synced.st);
    if synced.Done? {
      var st3 := Call(w, synced.st).st;
      SilentStep(w, synced.st, st3);
      assert w.confirmations(synced.st.clock) == w.confirmations(synced.st.clock) && synced.st.clock < st3.clock;
      TwoPassesAreSound(w, st3, cfg, cur, w.confirmations(synced.st.clock));
    }
  }

  lemma NftAttemptIsSound(w: World, st: State, st1: State, cfg: Config, cur: int)
    requires Faithful(w) && Sound(w, st1) && ReportedHeight(w, st1.clock, cur)
    requires Call(w, st) == Done(st1) && cur == w.height(st.clock) && cfg.kind == NonFungible
    ensures Sound(w, Attempt(w, st, cfg).st)
  {
    hide Sound, OnePass;
    var known := GetCurrentChainId(w, st1);
    SilentStep(w, st1, known.st);
    if known.Done? {
      var synced := CheckSynced(w, known.st);
      SilentStep(w, known.st, synced.st);
      if synced.Done? {
        OnePassIsSound(w, synced.st, cfg, Nft(cur), cur - NftConfirmations(synced.st.chainId.value));
      }
    }
  }

  lemma AttemptIsSound(w: World, st: State, cfg: Config)
    requires Faithful(w) && Sound(w, st)
    ensures Sound(w, Attempt(w, st, cfg).st)
  {
    var cur := w.height(st.clock);
    var st1 := Call(w, st).st;
    SilentStep(w, st, st1);
    if w.fate(st.clock) == Answers {
      assert w.height(st.clock) == cur && st.clock < st1.clock;
      match cfg.kind
      case Erc20 => Erc20AttemptIsSound(w, st, st1, cfg, cur);
      case NonFungible => NftAttemptIsSound(w, st, st1, cfg, cur);
      case HeartbeatReader => OnePassIsSound(w, st1, cfg, Beat(cur), cur);
    }
  }

  lemma {:induction false} AttemptsAreSound(w: World, st: State, cfg: Config, retries: nat)
    requires Faithful(w) && Sound(w, st) && retries > 0
    ensures Sound(w, Attempts(w, st, cfg, retries).st)
    decreases retries
  {
    AttemptIsSound(w, st, cfg);
    if retries == 1 {
    } else {
      AttemptsAreSound(w, Attempt(w, st, cfg).st, cfg, retries - 1);
    }
  }

  lemma RunIsSound(w: World, st: State, cfg: Config)
    requires Faithful(w) && Sound(w, st)
    ensures Sound(w, Run(w, st, cfg).st)
  {
    hide Sound, Attempts;
    var st1 := Call(w, st).st;
    SilentStep(w, st, st1);
    AttemptsAreSound(w, st1, cfg, Retries(cfg.kind));
    AttemptsAreSound(w, st, cfg, Retries(cfg.kind));
  }

  // Main result: whatever the environment does, every history of runs and restarts is sound.
  lemma {:induction false} HistoryIsSound(w: World, st: State, cfg: Config, runs: nat)
    requires Faithful(w) && Fresh(st)
    ensures Sound(w, History(w, st, cfg, runs))
    decreases runs
  {
    hide Run;
    if runs == 0 {
    } else {
      HistoryIsSound(w, st, cfg, runs - 1);
      var before := History(w, st, cfg, runs - 1);
      RunIsSound(w, before, cfg);
      var out := Run(w, before, cfg);
      SilentStep(w, out.st, Restart(out));
    }
  }
}
