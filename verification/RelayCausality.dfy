/**
 What a process does depends only on what it has been told: in two worlds that agree up to a tick,
 every run that ends by that tick is the same.
 */
module RelayCausality {
  import opened Network
  import opened Paging
  import opened Relay

  // Both worlds give the same answer to every call before tick `t`, and name events alike.
  ghost predicate SameUntil(w: World, v: World, t: nat) {
    && (forall s: nat | s < t :: w.fate(s) == v.fate(s) && w.height(s) == v.height(s) && w.netId(s) == v.netId(s))
    && (forall s: nat | s < t :: w.mainSyncing(s) == v.mainSyncing(s) && w.sideSyncing(s) == v.sideSyncing(s))
    && (forall s: nat, log: Log | s < t :: w.emitted(s, log) == v.emitted(s, log))
    && (forall s: nat, from: int, to: int | s < t :: w.logs(s, from, to) == v.logs(s, from, to))
    && (forall s: nat | s < t :: w.confirmations(s) == v.confirmations(s) && w.member(s) == v.member(s))
    && (forall s: nat, token: Address | s < t :: w.limits(s, token) == v.limits(s, token))
    && (forall s: nat, log: Log | s < t :: w.sideToken(s, log) == v.sideToken(s, log))
    && (forall log: Log :: w.txId(log) == v.txId(log))
    && (forall s: nat, tx: TxId | s < t :: w.processed(s, tx) == v.processed(s, tx))
    && (forall s: nat, tx: TxId | s < t :: w.voted(s, tx) == v.voted(s, tx))
    && (forall s: nat, tx: TxId | s < t :: w.delivery(s, tx) == v.delivery(s, tx))
    && (forall s: nat | s < t :: w.readable(s) == v.readable(s))
  }

  lemma SameSend(w: World, v: World, t: nat, s: nat, tx: TxId)
    requires SameUntil(w, v, t)
    ensures s < t ==> w.fate(s) == v.fate(s) && w.delivery(s, tx) == v.delivery(s, tx)
  {
  }

  lemma SameSending(w: World, v: World, t: nat, st: State, b: Ballot)
    requires SameUntil(w, v, t) && VoteTransaction(w, st, b).st.clock <= t
    ensures VoteTransaction(v, st, b) == VoteTransaction(w, st, b)
  {
    hide Extends, VotingOnly, SameUntil;
    SameSend(w, v, t, st.clock, b.tx);
    SameSend(w, v, t, st.clock + 1, b.tx);
    SameSend(w, v, t, st.clock + 2, b.tx);
    SameSend(w, v, t, st.clock + 3, b.tx);
  }

  lemma SameCast(w: World, v: World, t: nat, st: State, cur: int, terms: Terms, log: Log)
    requires SameUntil(w, v, t) && CastVote(w, st, cur, terms, log).st.clock <= t
    ensures CastVote(v, st, cur, terms, log) == CastVote(w, st, cur, terms, log)
  {
    hide VotingOnly, VoteTransaction;
    var st2 := Call(w, Call(w, st).st).st;
    var b := Ballot(log, w.txId(log), cur, terms, st.clock, st.clock + 1);
    if VoteTransaction(w, st2, b).st.clock <= t {
      SameSending(w, v, t, st2, b);
    }
  }

  lemma SameEvent(w: World, v: World, t: nat, st: State, scan: Scan, log: Log)
    requires SameUntil(w, v, t) && !scan.Beat?
    ensures scan.Nft? && ProcessNftLog(w, st, scan, log).st.clock <= t ==>
              ProcessNftLog(v, st, scan, log) == ProcessNftLog(w, st, scan, log)
    ensures !scan.Nft? && ProcessErc20Log(w, st, scan, log).st.clock <= t ==>
              ProcessErc20Log(v, st, scan, log) == ProcessErc20Log(w, st, scan, log)
  {
    hide CastVote, VotingOnly;
    if scan.Nft? {
      var st1 := GetCurrentChainId(w, st);
      if st1.Done? && CastVote(w, st1.st, scan.cur, Flat(NftConfirmations(st1.st.chainId.value)), log).st.clock <= t {
        SameCast(w, v, t, st1.st, scan.cur, Flat(NftConfirmations(st1.st.chainId.value)), log);
      }
    } else {
      var st2 := Call(w, Call(w, st).st).st;
      var terms := Tiered(scan.conf, w.limits(st.clock + 1, LimitsToken(log, w.sideToken(st.clock, log))));
      if CastVote(w, st2, scan.cur, terms, log).st.clock <= t {
        SameCast(w, v, t, st2, scan.cur, terms, log);
      }
    }
  }

  lemma {:induction false} SameEach(w: World, v: World, t: nat, st: State, scan: Scan, logs: seq<Log>)
    requires SameUntil(w, v, t) && !scan.Beat? && ProcessEach(w, st, scan, logs).st.clock <= t
    ensures ProcessEach(v, st, scan, logs) == ProcessEach(w, st, scan, logs)
    decreases logs
  {
    hide VotingOnly, SameUntil, ProcessNftLog, ProcessErc20Log;
    if logs == [] {
    } else {
      var one := if scan.Nft? then ProcessNftLog(w, st, scan, logs[0]) else ProcessErc20Log(w, st, scan, logs[0]);
      SameEvent(w, v, t, st, scan, logs[0]);
      if one.Done? {
        SameEach(w, v, t, one.st, scan, logs[1..]);
      }
    }
  }

  lemma SameLogs(w: World, v: World, t: nat, st: State, scan: Scan, logs: seq<Log>)
    requires SameUntil(w, v, t) && ProcessLogs(w, st, scan, logs).st.clock <= t
    ensures ProcessLogs(v, st, scan, logs) == ProcessLogs(w, st, scan, logs)
  {
    hide VotingOnly, ProcessEach;
    var asked := Call(w, st).st;
    if !scan.Beat? && ProcessEach(w, asked, scan, logs).st.clock <= t {
      SameEach(w, v, t, asked, scan, logs);
    }
  }

  lemma SamePage(w: World, v: World, t: nat, st: State, scan: Scan, page: Page)
    requires SameUntil(w, v, t) && FetchPage(w, st, scan, page).st.clock <= t
    ensures FetchPage(v, st, scan, page) == FetchPage(w, st, scan, page)
  {
    hide VotingOnly, ProcessLogs;
    var noted := Note(st.(clock := st.clock + 1), Fetched(st.clock, scan, page));
    var logs := w.logs(st.clock, page.from, page.to);
    if ProcessLogs(w, noted, scan, logs).st.clock <= t {
      SameLogs(w, v, t, noted, scan, logs);
    }
  }

  lemma {:induction false} SamePages(w: World, v: World, t: nat, st: State, scan: Scan, pages: seq<Page>)
    requires SameUntil(w, v, t) && FetchPages(w, st, scan, pages).st.clock <= t
    ensures FetchPages(v, st, scan, pages) == FetchPages(w, st, scan, pages)
    decreases pages
  {
    hide SameUntil, FetchPage;
    if pages == [] {
    } else {
      var one := FetchPage(w, st, scan, pages[0]);
      SamePage(w, v, t, st, scan, pages[0]);
      if one.Done? {
        SamePages(w, v, t, one.st, scan, pages[1..]);
      }
    }
  }

  lemma SameScan(w: World, v: World, t: nat, st: State, scan: Scan, from: int, to: int)
    requires SameUntil(w, v, t) && GetLogsAndProcess(w, st, scan, from, to).st.clock <= t
    ensures GetLogsAndProcess(v, st, scan, from, to) == GetLogsAndProcess(w, st, scan, from, to)
  {
    hide FetchPages, Pages;
    var st1 := Call(w, st).st;
    if from < to && w.fate(st.clock).Answers? {
      SamePages(w, v, t, st1, scan, Pages(from, to));
    }
  }

  lemma SameTwoPasses(w: World, v: World, t: nat, st: State, cfg: Config, cur: int, conf: Confirmations)
    requires SameUntil(w, v, t) && TwoPasses(w, st, cfg, cur, conf).st.clock <= t
    ensures TwoPasses(v, st, cfg, cur, conf) == TwoPasses(w, st, cfg, cur, conf)
  {
    hide GetLogsAndProcess;
    var from, toBlock, newToBlock := LastProcessed(w, st, cfg) + 1, cur - conf.large, cur - conf.small;
    var st1 := Call(w, st).st;
    var first := GetLogsAndProcess(w, st1, Deep(cur, conf), from, toBlock);
    if first.st.clock <= t {
      SameScan(w, v, t, st1, Deep(cur, conf), from, toBlock);
    }
    if GetLogsAndProcess(w, first.st, Shallow(cur, conf), toBlock, newToBlock).st.clock <= t {
      SameScan(w, v, t, first.st, Shallow(cur, conf), toBlock, newToBlock);
    }
  }

  lemma SameOnePass(w: World, v: World, t: nat, st: State, cfg: Config, scan: Scan, toBlock: int)
    requires SameUntil(w, v, t) && OnePass(w, st, cfg, scan, toBlock).st.clock <= t
    ensures OnePass(v, st, cfg, scan, toBlock) == OnePass(w, st, cfg, scan, toBlock)
  {
    hide GetLogsAndProcess, FetchPages, Pages;
    var from := LastProcessed(w, st, cfg) + 1;
    var st1 := Call(w, st).st;
    if FetchPages(w, st1, scan, Pages(from, toBlock)).st.clock <= t {
      SamePages(w, v, t, st1, scan, Pages(from, toBlock));
    }
    if GetLogsAndProcess(w, st1, scan, from, toBlock).st.clock <= t {
      SameScan(w, v, t, st1, scan, from, toBlock);
    }
  }

  lemma SameChecks(w: World, v: World, t: nat, st: State)
    requires SameUntil(w, v, t)
    ensures Call(w, st).st.clock <= t ==> Call(v, st) == Call(w, st)
    ensures CheckSynced(w, st).st.clock <= t ==> CheckSynced(v, st) == CheckSynced(w, st)
    ensures GetCurrentChainId(w, st).st.clock <= t ==> GetCurrentChainId(v, st) == GetCurrentChainId(w, st)
  {
  }

  lemma SameAnswers(w: World, v: World, t: nat, s: nat)
    requires SameUntil(w, v, t)
    ensures s < t ==> w.height(s) == v.height(s) && w.confirmations(s) == v.confirmations(s)
  {
  }

  lemma SameErc20Attempt(w: World, v: World, t: nat, st: State, cfg: Config)
    requires SameUntil(w, v, t) && Attempt(w, st, cfg).st.clock <= t && cfg.kind == Erc20
    ensures Attempt(v, st, cfg) == Attempt(w, st, cfg)
  {
    hide TwoPasses, CheckSynced, SameUntil;
    var st1 := Call(w, st).st;
    var st2 := CheckSynced(w, st1).st;
    var st3 := Call(w, st2).st;
    SameAnswers(w, v, t, st.clock);
    SameAnswers(w, v, t, st2.clock);
    SameChecks(w, v, t, st);
    SameChecks(w, v, t, st1);
    SameChecks(w, v, t, st2);
    var cur, conf := w.height(st.clock), w.confirmations(st2.clock);
    if TwoPasses(w, st3, cfg, cur, conf).st.clock <= t {
      SameTwoPasses(w, v, t, st3, cfg, cur, conf);
    }
  }

  lemma SameNftAttempt(w: World, v: World, t: nat, st: State, cfg: Config)
    requires SameUntil(w, v, t) && Attempt(w, st, cfg).st.clock <= t && cfg.kind == NonFungible
    ensures Attempt(v, st, cfg) == Attempt(w, st, cfg)
  {
    hide OnePass, CheckSynced, GetCurrentChainId, SameUntil;
    var cur := w.height(st.clock);
    var st1 := Call(w, st).st;
    var known := GetCurrentChainId(w, st1);
    SameAnswers(w, v, t, st.clock);
    SameChecks(w, v, t, st);
    SameChecks(w, v, t, st1);
    if known.Done? {
      var st3 := CheckSynced(w, known.st).st;
      SameChecks(w, v, t, known.st);
      var toBlock := cur - NftConfirmations(st3.chainId.value);
      if OnePass(w, st3, cfg, Nft(cur), toBlock).st.clock <= t {
        SameOnePass(w, v, t, st3, cfg, Nft(cur), toBlock);
      }
    }
  }

  lemma SameAttempt(w: World, v: World, t: nat, st: State, cfg: Config)
    requires SameUntil(w, v, t) && Attempt(w, st, cfg).st.clock <= t
    ensures Attempt(v, st, cfg) == Attempt(w, st, cfg)
  {
    hide TwoPasses, OnePass, SameUntil;
    match cfg.kind
    case Erc20 => SameErc20Attempt(w, v, t, st, cfg);
    case NonFungible => SameNftAttempt(w, v, t, st, cfg);
    case HeartbeatReader =>
      var cur := w.height(st.clock);
      var st1 := Call(w, st).st;
      SameAnswers(w, v, t, st.clock);
      SameChecks(w, v, t, st);
      if OnePass(w, st1, cfg, Beat(cur), cur).st.clock <= t {
        SameOnePass(w, v, t, st1, cfg, Beat(cur), cur);
      }
  }

  lemma {:induction false} SameAttempts(w: World, v: World, t: nat, st: State, cfg: Config, retries: nat)
    requires SameUntil(w, v, t) && retries > 0 && Attempts(w, st, cfg, retries).st.clock <= t
    ensures Attempts(v, st, cfg, retries) == Attempts(w, st, cfg, retries)
    decreases retries
  {
    hide Attempt, SameUntil;
    SameAttempt(w, v, t, st, cfg);
    var out := Attempt(w, st, cfg);
    if out.Stopped? && out.why.Failed? && retries > 1 {
      SameAttempts(w, v, t, out.st, cfg, retries - 1);
    }
  }

  lemma SameRun(w: World, v: World, t: nat, st: State, cfg: Config)
    requires SameUntil(w, v, t) && Run(w, st, cfg).st.clock <= t
    ensures Run(v, st, cfg) == Run(w, st, cfg)
  {
    hide Attempts;
    var first := if cfg.kind == HeartbeatReader then Call(w, st).st else st;
    if Attempts(w, first, cfg, Retries(cfg.kind)).st.clock <= t {
      SameAttempts(w, v, t, first, cfg, Retries(cfg.kind));
    }
  }

  // Main result: a history is fixed by the answers given before its last tick.
  lemma {:induction false} HistoryIsCausal(w: World, v: World, st: State, cfg: Config, runs: nat, t: nat)
    requires SameUntil(w, v, t) && History(w, st, cfg, runs).clock <= t
    ensures History(v, st, cfg, runs) == History(w, st, cfg, runs)
    decreases runs
  {
    hide Run, SameUntil;
    if runs == 0 {
    } else {
      HistoryIsCausal(w, v, st, cfg, runs - 1, t);
      SameRun(w, v, t, History(w, st, cfg, runs - 1), cfg);
    }
  }
}
