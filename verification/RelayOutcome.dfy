/**
 How an attempt and a run end, in the world's own terms: what the last call was told decides whether
 the attempt throws, is killed, or returns.
 */
module RelayOutcome {
  import opened Options
  import opened Network
  import opened Paging
  import opened Relay
  import opened RelayRising
  import opened RelayRuns
  import opened RelayCompletion

  // The last call before state `b` was answered with something the program throws at: it is no member,
  // the token of an event is neither mapped nor allowed, or the send threw.
  predicate ToldToThrow(w: World, b: State, e: Event) {
    match e
    case NotMember(at) => at + 1 == b.clock && !w.member(at)
    case NotAllowed(at, log) =>
      && at + 1 == b.clock && at > 0
      && w.sideToken(at - 1, log) == ZERO_ADDRESS && !w.limits(at, log.tokenAddress).allowed
    case Sent(at, ballot, _) => at + 1 == b.clock && w.delivery(at, ballot.tx).LostByThrow?
    case _ => false
  }

  predicate ToldToDie(w: World, b: State, e: Event) {
    e.Sent? && e.at + 1 == b.clock && w.delivery(e.at, e.ballot.tx).LostByHalt?
  }

  function Last(trace: seq<Event>): Event
    requires trace != []
  {
    trace[|trace| - 1]
  }

  // Between `a` and `b` an exception was raised by the last call, or by the program at its answer.
  predicate Throwing(w: World, a: State, b: State) {
    && a.clock < b.clock
    && (w.fate(b.clock - 1).Fails?
        || (w.fate(b.clock - 1).Answers? && |a.trace| < |b.trace| && ToldToThrow(w, b, Last(b.trace))))
  }

  predicate Dying(w: World, a: State, b: State) {
    && a.clock < b.clock
    && (w.fate(b.clock - 1).Halts?
        || (w.fate(b.clock - 1).Answers? && |a.trace| < |b.trace| && ToldToDie(w, b, Last(b.trace))))
  }

  // Every call between the two ticks was answered.
  ghost predicate Answered(w: World, since: nat, until: nat) {
    forall t: nat | since <= t < until :: w.fate(t).Answers?
  }

  // The outcome of the send was learnt.
  predicate Settled(w: World, e: Event)
    requires e.Sent?
  {
    w.delivery(e.at, e.ballot.tx).Mined? || w.delivery(e.at, e.ballot.tx).Refused?
  }

  // Nothing that stops a program was noted between `a` and `b`.
  ghost predicate Smooth(w: World, a: State, b: State) {
    && a.trace <= b.trace
    && forall i | |a.trace| <= i < |b.trace| ::
         && !b.trace[i].NotMember? && !b.trace[i].NotAllowed?
         && (b.trace[i].Sent? ==> Settled(w, b.trace[i]))
  }

  // A piece of an attempt either goes through, or is ended by its last call.
  ghost predicate EndsAsTold(w: World, a: State, out: Outcome) {
    && Extends(a, out.st)
    && match out
       case Done(b) => Answered(w, a.clock, b.clock) && Smooth(w, a, b)
       case Stopped(b, why) =>
         && a.clock < b.clock && Answered(w, a.clock, b.clock - 1)
         && if why.Failed? then Throwing(w, a, b) && !Dying(w, a, b)
            else why.Crashed? && Dying(w, a, b) && !Throwing(w, a, b)
  }

  // Two pieces, one after the other.
  lemma EndsAsToldAdd(w: World, a: State, b: State, out: Outcome)
    requires EndsAsTold(w, a, Done(b)) && EndsAsTold(w, b, out)
    ensures EndsAsTold(w, a, out)
  {
    var c := out.st;
    if out.Done? {
      forall i | |a.trace| <= i < |c.trace|
        ensures !c.trace[i].NotMember? && !c.trace[i].NotAllowed?
        ensures c.trace[i].Sent? ==> Settled(w, c.trace[i])
      {
        if i < |b.trace| {
          assert c.trace[i] == b.trace[i];
        }
      }
    }
  }

  // ---------------------------------------------------------------- one vote, one event

  lemma CallEnds(w: World, st: State)
    ensures EndsAsTold(w, st, Call(w, st))
  {
  }

  lemma VoteEnds(w: World, st: State, b: Ballot)
    ensures EndsAsTold(w, st, VoteTransaction(w, st, b))
  {
    hide VotingOnly;
  }

  lemma CastEnds(w: World, st: State, cur: int, terms: Terms, log: Log)
    ensures EndsAsTold(w, st, CastVote(w, st, cur, terms, log))
  {
    hide VotingOnly, VoteTransaction;
    var st2 := Call(w, Call(w, st).st).st;
    var b := Ballot(log, w.txId(log), cur, terms, st.clock, st.clock + 1);
    VoteEnds(w, st2, b);
    if EndsAsTold(w, st, Done(st2)) {
      EndsAsToldAdd(w, st, st2, VoteTransaction(w, st2, b));
    }
  }

  lemma EventEnds(w: World, st: State, scan: Scan, log: Log)
    requires !scan.Beat?
    ensures EndsAsTold(w, st, if scan.Nft? then ProcessNftLog(w, st, scan, log) else ProcessErc20Log(w, st, scan, log))
  {
    hide VotingOnly, CastVote;
    if scan.Nft? {
      var st1 := GetCurrentChainId(w, st);
      if st1.Done? {
        var terms := Flat(NftConfirmations(st1.st.chainId.value));
        CastEnds(w, st1.st, scan.cur, terms, log);
        EndsAsToldAdd(w, st, st1.st, CastVote(w, st1.st, scan.cur, terms, log));
      }
    } else {
      var st2 := Call(w, Call(w, st).st).st;
      var terms := Tiered(scan.conf, w.limits(st.clock + 1, LimitsToken(log, w.sideToken(st.clock, log))));
      CastEnds(w, st2, scan.cur, terms, log);
      if EndsAsTold(w, st, Done(st2)) {
        EndsAsToldAdd(w, st, st2, CastVote(w, st2, scan.cur, terms, log));
      }
    }
  }

  lemma {:induction false} EachEnds(w: World, st: State, scan: Scan, logs: seq<Log>)
    requires !scan.Beat?
    ensures EndsAsTold(w, st, ProcessEach(w, st, scan, logs))
    decreases logs
  {
    hide VotingOnly, ProcessNftLog, ProcessErc20Log;
    if logs == [] {
    } else {
      hide EndsAsTold;
      var one := if scan.Nft? then ProcessNftLog(w, st, scan, logs[0]) else ProcessErc20Log(w, st, scan, logs[0]);
      EventEnds(w, st, scan, logs[0]);
      if one.Done? {
        EachEnds(w, one.st, scan, logs[1..]);
        EndsAsToldAdd(w, st, one.st, ProcessEach(w, one.st, scan, logs[1..]));
      }
    }
  }

  lemma LogsEnd(w: World, st: State, scan: Scan, logs: seq<Log>)
    ensures EndsAsTold(w, st, ProcessLogs(w, st, scan, logs))
  {
    hide VotingOnly, ProcessEach;
    CallEnds(w, st);
    var asked := Call(w, st);
    if !scan.Beat? && asked.Done? && w.member(st.clock) {
      EachEnds(w, asked.st, scan, logs);
      EndsAsToldAdd(w, st, asked.st, ProcessEach(w, asked.st, scan, logs));
    }
  }

  // ---------------------------------------------------------------- pages

  lemma SaveEnds(w: World, st: State, scan: Scan, value: int)
    ensures EndsAsTold(w, st, SaveProgress(w, st, scan, value))
  {
  }

  lemma PageEnds(w: World, st: State, scan: Scan, page: Page)
    ensures EndsAsTold(w, st, FetchPage(w, st, scan, page))
  {
    hide VotingOnly, ProcessLogs;
    if w.fate(st.clock).Answers? {
      var noted := Note(st.(clock := st.clock + 1), Fetched(st.clock, scan, page));
      var logs := ProcessLogs(w, noted, scan, w.logs(st.clock, page.from, page.to));
      assert EndsAsTold(w, st, Done(noted));
      LogsEnd(w, noted, scan, w.logs(st.clock, page.from, page.to));
      EndsAsToldAdd(w, st, noted, logs);
      if logs.Done? && !scan.Shallow? {
        SaveEnds(w, logs.st, scan, page.to);
        EndsAsToldAdd(w, st, logs.st, SaveProgress(w, logs.st, scan, page.to));
      }
    }
  }

  lemma {:induction false} PagesEnd(w: World, st: State, scan: Scan, pages: seq<Page>)
    ensures EndsAsTold(w, st, FetchPages(w, st, scan, pages))
    decreases pages
  {
    hide FetchPage;
    if pages == [] {
    } else {
      hide EndsAsTold;
      var one := FetchPage(w, st, scan, pages[0]);
      PageEnds(w, st, scan, pages[0]);
      if one.Done? {
        PagesEnd(w, one.st, scan, pages[1..]);
        EndsAsToldAdd(w, st, one.st, FetchPages(w, one.st, scan, pages[1..]));
      }
    }
  }

  lemma ScanEnds(w: World, st: State, scan: Scan, from: int, to: int)
    ensures EndsAsTold(w, st, GetLogsAndProcess(w, st, scan, from, to))
  {
    hide FetchPages, Pages;
    CallEnds(w, st);
    var st1 := Call(w, st);
    if from < to && st1.Done? {
      PagesEnd(w, st1.st, scan, Pages(from, to));
      EndsAsToldAdd(w, st, st1.st, FetchPages(w, st1.st, scan, Pages(from, to)));
    }
  }

  // ---------------------------------------------------------------- an attempt

  // A node told the attempt that it is syncing; every call up to that answer was answered.
  predicate ToldSyncing(w: World, st: State, cfg: Config) {
    var asked := st.clock + if cfg.kind == Erc20 || st.chainId.Some? then 1 else 2;
    && cfg.kind != HeartbeatReader
    && (forall t: nat | st.clock <= t <= asked :: w.fate(t).Answers?)
    && (w.mainSyncing(asked) || (w.fate(asked + 1).Answers? && w.sideSyncing(asked + 1)))
  }

  // The same for what may also find nothing to do.
  ghost predicate PassEnds(w: World, a: State, out: Outcome) {
    if out.Stopped? && out.why.Idle? then Answered(w, a.clock, out.st.clock) && out.st.trace == a.trace
    else EndsAsTold(w, a, out)
  }

  lemma TwoPassesEnd(w: World, st: State, cfg: Config, cur: int, conf: Confirmations)
    ensures PassEnds(w, st, TwoPasses(w, st, cfg, cur, conf))
  {
    hide GetLogsAndProcess, EndsAsTold;
    CallEnds(w, st);
    var st1 := Call(w, st);
    var from, toBlock, newToBlock := LastProcessed(w, st, cfg) + 1, cur - conf.large, cur - conf.small;
    if st1.Done? {
      var first := GetLogsAndProcess(w, st1.st, Deep(cur, conf), from, toBlock);
      ScanEnds(w, st1.st, Deep(cur, conf), from, toBlock);
      EndsAsToldAdd(w, st, st1.st, first);
      if first.Done? {
        var second := GetLogsAndProcess(w, first.st, Shallow(cur, conf), toBlock, newToBlock);
        ScanEnds(w, first.st, Shallow(cur, conf), toBlock, newToBlock);
        EndsAsToldAdd(w, st, first.st, second);
      }
    }
  }

  lemma OnePassEnds(w: World, st: State, cfg: Config, scan: Scan, toBlock: int)
    ensures PassEnds(w, st, OnePass(w, st, cfg, scan, toBlock))
  {
    hide GetLogsAndProcess, FetchPages, Pages, EndsAsTold;
    CallEnds(w, st);
    var st1 := Call(w, st);
    var from := LastProcessed(w, st, cfg) + 1;
    if st1.Done? {
      PagesEnd(w, st1.st, scan, Pages(from, toBlock));
      ScanEnds(w, st1.st, scan, from, toBlock);
      EndsAsToldAdd(w, st, st1.st, FetchPages(w, st1.st, scan, Pages(from, toBlock)));
      EndsAsToldAdd(w, st, st1.st, GetLogsAndProcess(w, st1.st, scan, from, toBlock));
    }
  }

  // A node in sync and every call answered up to where the pass begins, after `calls` calls.
  lemma PassBegins(w: World, a: State, b: State, out: Outcome)
    requires a.clock < b.clock && b.trace == a.trace && Extends(a, b) && Answered(w, a.clock, b.clock)
    requires PassEnds(w, b, out) && Extends(b, out.st)
    ensures PassEnds(w, a, out)
  {
    if !(out.Stopped? && out.why.Idle?) {
      EndsAsToldAdd(w, a, b, out);
    }
  }

  // The checks before the passes of an ERC20 attempt: they answer, are cut short, or find a node
  // syncing.
  lemma Erc20ChecksEnd(w: World, st: State, cfg: Config) returns (ready: Outcome)
    requires cfg.kind == Erc20
    ensures ToldSyncing(w, st, cfg) <==> ready.Stopped? && ready.why.Syncing?
    ensures !ToldSyncing(w, st, cfg) ==> EndsAsTold(w, st, ready)
    ensures st.clock < ready.st.clock && ready.st.trace == st.trace
    ensures ready.Stopped? ==> Attempt(w, st, cfg) == ready
    ensures ready.Done? ==>
              Attempt(w, st, cfg)
              == TwoPasses(w, ready.st, cfg, w.height(st.clock), w.confirmations(st.clock + 3))
  {
    hide TwoPasses;
    var st1 := Call(w, st);
    var synced := if st1.Done? then CheckSynced(w, st1.st) else st1;
    ready := if synced.Done? then Call(w, synced.st) else synced;
  }

  lemma Erc20AttemptEnds(w: World, st: State, cfg: Config)
    requires cfg.kind == Erc20
    ensures var out := Attempt(w, st, cfg);
            if ToldSyncing(w, st, cfg) then out.Stopped? && out.why.Syncing? else PassEnds(w, st, out)
  {
    hide TwoPasses, Attempt;
    var cur, conf := w.height(st.clock), w.confirmations(st.clock + 3);
    var ready := Erc20ChecksEnd(w, st, cfg);
    if ready.Done? {
      TwoPassesEnd(w, ready.st, cfg, cur, conf);
      PassBegins(w, st, ready.st, TwoPasses(w, ready.st, cfg, cur, conf));
    }
  }

  // The checks before the pass of an NFT attempt: they answer, are cut short, or find a node syncing.
  lemma NftChecksEnd(w: World, st: State, cfg: Config) returns (synced: Outcome)
    requires cfg.kind == NonFungible
    ensures ToldSyncing(w, st, cfg) <==> synced.Stopped? && synced.why.Syncing?
    ensures !ToldSyncing(w, st, cfg) ==> EndsAsTold(w, st, synced)
    ensures st.clock < synced.st.clock && synced.st.trace == st.trace
    ensures synced.Stopped? ==> Attempt(w, st, cfg) == synced
    ensures synced.Done? ==>
              var cur := w.height(st.clock);
              && synced.st.chainId.Some?
              && Attempt(w, st, cfg)
                 == OnePass(w, synced.st, cfg, Nft(cur), cur - NftConfirmations(synced.st.chainId.value))
  {
    hide OnePass;
    var st1 := Call(w, st);
    var known := if st1.Done? then GetCurrentChainId(w, st1.st) else st1;
    synced := if known.Done? then CheckSynced(w, known.st) else known;
  }

  lemma NftAttemptEnds(w: World, st: State, cfg: Config)
    requires cfg.kind == NonFungible
    ensures var out := Attempt(w, st, cfg);
            if ToldSyncing(w, st, cfg) then out.Stopped? && out.why.Syncing? else PassEnds(w, st, out)
  {
    hide OnePass, Attempt;
    var cur := w.height(st.clock);
    var synced := NftChecksEnd(w, st, cfg);
    if synced.Done? {
      var to := cur - NftConfirmations(synced.st.chainId.value);
      OnePassEnds(w, synced.st, cfg, Nft(cur), to);
      PassBegins(w, st, synced.st, OnePass(w, synced.st, cfg, Nft(cur), to));
    }
  }

  lemma AttemptEnds(w: World, st: State, cfg: Config)
    ensures var out := Attempt(w, st, cfg);
            if ToldSyncing(w, st, cfg) then out.Stopped? && out.why.Syncing? else PassEnds(w, st, out)
  {
    hide TwoPasses, OnePass;
    match cfg.kind
    case Erc20 => Erc20AttemptEnds(w, st, cfg);
    case NonFungible => NftAttemptEnds(w, st, cfg);
    case HeartbeatReader =>
      var cur := w.height(st.clock);
      var st1 := Call(w, st).st;
      if w.fate(st.clock).Answers? {
        OnePassEnds(w, st1, cfg, Beat(cur), cur);
        PassBegins(w, st, st1, OnePass(w, st1, cfg, Beat(cur), cur));
      }
  }

  // A node that is syncing makes the attempt return, with both files as they were and the chain id
  // remembered.
  lemma SyncingAttemptReturns(w: World, st: State, cfg: Config)
    requires ToldSyncing(w, st, cfg)
    ensures var asked := st.clock + if cfg.kind == Erc20 || st.chainId.Some? then 1 else 2;
            var known := if cfg.kind == Erc20 then st.chainId else Some(st.chainId.GetOr(w.netId(st.clock + 1)));
            Attempt(w, st, cfg)
            == Stopped(st.(clock := asked + if w.mainSyncing(asked) then 1 else 2, chainId := known), Syncing)
  {
    hide TwoPasses, OnePass;
  }

  lemma AttemptTakesACall(w: World, st: State, cfg: Config)
    ensures st.clock < Attempt(w, st, cfg).st.clock
  {
    hide TwoPasses, OnePass;
  }

  lemma PassEndsExactly(w: World, a: State, out: Outcome)
    requires PassEnds(w, a, out) && a.clock < out.st.clock
    ensures Answered(w, a.clock, out.st.clock - 1)
    ensures out.Stopped? && out.why.Failed? <==> Throwing(w, a, out.st)
    ensures out.Stopped? && out.why.Crashed? <==> Dying(w, a, out.st)
    ensures out.Stopped? ==> out.why in {Failed, Crashed, Idle}
  {
  }

  // Main result: the last call of an attempt decides how it ends.  It throws exactly when that call
  // failed, or told it that it is no member, that a token is not allowed, or that the send threw; it
  // is killed exactly when it died in that call; it returns for a syncing node exactly when told so;
  // and all calls before the last one were answered.
  lemma AttemptEndsExactlyAsTold(w: World, st: State, cfg: Config)
    ensures var out := Attempt(w, st, cfg);
            && st.clock < out.st.clock && Answered(w, st.clock, out.st.clock - 1)
            && (out.Stopped? && out.why.Failed? <==> Throwing(w, st, out.st))
            && (out.Stopped? && out.why.Crashed? <==> Dying(w, st, out.st))
            && (out.Stopped? && out.why.Syncing? <==> ToldSyncing(w, st, cfg))
            && (out.Stopped? ==> !out.why.Exited?)
            && (out.Done? ==> HasWork(w, st, cfg))
  {
    hide Attempt, HasWork;
    AttemptEnds(w, st, cfg);
    AttemptTakesACall(w, st, cfg);
    if ToldSyncing(w, st, cfg) {
      SyncingAttemptReturns(w, st, cfg);
    } else {
      PassEndsExactly(w, st, Attempt(w, st, cfg));
    }
    if Attempt(w, st, cfg).Done? {
      CompletedRunHadWork(w, st, cfg);
    }
  }

  lemma CompletedAttemptWasAnswered(w: World, st: State, cfg: Config)
    requires Attempt(w, st, cfg).Done?
    ensures Answered(w, st.clock, Attempt(w, st, cfg).st.clock)
  {
    hide Attempt;
    AttemptEnds(w, st, cfg);
  }

  // ---------------------------------------------------------------- a run

  // Attempt number `i` of a run whose attempts begin in state `first`, all earlier ones having thrown,
  // throws as well.
  predicate ThrowingAt(w: World, first: State, cfg: Config, i: nat) {
    Throwing(w, BeforeAttempt(w, first, cfg, i), BeforeAttempt(w, first, cfg, i + 1))
  }

  lemma ThrowsAsTold(w: World, first: State, cfg: Config, i: nat)
    ensures Throws(w, BeforeAttempt(w, first, cfg, i), cfg) <==> ThrowingAt(w, first, cfg, i)
  {
    hide Attempt, Throwing;
    AttemptEndsExactlyAsTold(w, BeforeAttempt(w, first, cfg, i), cfg);
  }

  // Main result: a run exits exactly when one attempt of the ERC20 program, or three of the others,
  // threw one after the other.
  lemma RunExitsExactlyWhen(w: World, st: State, cfg: Config)
    requires BeforeAttempts(w, st, cfg).Done?
    ensures var first := BeforeAttempts(w, st, cfg).st;
            Run(w, st, cfg).Stopped? && Run(w, st, cfg).why.Exited?
            <==> forall i: nat | i < if cfg.kind == Erc20 then 1 else 3 :: ThrowingAt(w, first, cfg, i)
  {
    hide Attempt, ThrowingAt;
    var first := BeforeAttempts(w, st, cfg).st;
    var retries := if cfg.kind == Erc20 then 1 else 3;
    var k := RunEndsWithFirstGoodAttempt(w, first, cfg, retries);
    forall i: nat | i < retries
      ensures Throws(w, BeforeAttempt(w, first, cfg, i), cfg) <==> ThrowingAt(w, first, cfg, i)
    {
      ThrowsAsTold(w, first, cfg, i);
    }
    AttemptEndsExactlyAsTold(w, BeforeAttempt(w, first, cfg, k), cfg);
  }

  // Main result: the NFT federator and the heartbeat reader survive up to two attempts that throw.
  lemma RetriedRunCompletes(w: World, st: State, cfg: Config, k: nat)
    requires cfg.kind != Erc20 && k < 3 && BeforeAttempts(w, st, cfg).Done?
    requires var first := BeforeAttempts(w, st, cfg).st;
             && (forall i: nat | i < k :: ThrowingAt(w, first, cfg, i))
             && Healthy(w, BeforeAttempt(w, first, cfg, k).clock)
             && HasWork(w, BeforeAttempt(w, first, cfg, k), cfg)
    ensures Run(w, st, cfg).Done?
  {
    hide Attempt, ThrowingAt, HasWork, Healthy;
    var first := BeforeAttempts(w, st, cfg).st;
    var n := RunEndsWithFirstGoodAttempt(w, first, cfg, 3);
    HealthyAttempt(w, BeforeAttempt(w, first, cfg, k), cfg);
    if n < k {
      ThrowsAsTold(w, first, cfg, n);
    }
  }

  // A run that is told that a node is syncing returns: the process goes on, and remembers its chain.
  lemma SyncingRunReturns(w: World, st: State, cfg: Config)
    requires ToldSyncing(w, st, cfg)
    ensures Run(w, st, cfg) == Attempt(w, st, cfg)
    ensures Run(w, st, cfg).Stopped? && Run(w, st, cfg).why.Syncing?
    ensures Restart(Run(w, st, cfg)) == Run(w, st, cfg).st
    ensures cfg.kind == NonFungible ==> Restart(Run(w, st, cfg)).chainId.Some?
  {
    SyncingAttemptReturns(w, st, cfg);
  }

  // The heartbeat reader exits without an attempt exactly off these five chains.
  lemma HeartbeatRunsOnlyOnRsk(w: World, st: State, cfg: Config)
    requires cfg.kind == HeartbeatReader && w.fate(st.clock).Answers?
    ensures Run(w, st, cfg) == Stopped(st.(clock := st.clock + 1), Exited)
            <==> w.netId(st.clock) !in {0, 5777, 30, 31, 33}
  {
    hide Attempt;
    AttemptTakesACall(w, st.(clock := st.clock + 1), cfg);
  }

  // A process that exited or died is started again without its memory of the chain, and with nothing
  // else changed; one that returned keeps it.
  lemma RestartForgetsExactlyWhen(w: World, st: State, cfg: Config, runs: nat)
    ensures var out := Run(w, History(w, st, cfg, runs), cfg);
            var next := History(w, st, cfg, runs + 1);
            && next == out.st.(chainId := next.chainId)
            && next.chainId == (if out.Done? || out.why in {Idle, Syncing} then out.st.chainId else None)
  {
    hide Run;
  }
}
