/**
 Sending again: when a second vote for an id follows a first one.  Nothing but the file of refused
 votes keeps an id from being voted again whatever the chains answer next; if the destination chain
 remembers, so does everything it has already shown.
 */
module RelayAgain {
  import opened Network
  import opened Paging
  import opened Relay
  import opened RelaySafety
  import opened RelayJudgement
  import opened RelayCoverage
  import opened RelayCausality
  import opened RelayRepeat
  import opened RelayExamples

  // A vote for the id was sent between `a` and `b`.
  ghost predicate SendsFor(a: State, b: State, tx: TxId) {
    && a.trace <= b.trace
    && exists i :: |a.trace| <= i < |b.trace| && b.trace[i].Sent? && b.trace[i].ballot.tx == tx
  }

  lemma SendsForWithin(a: State, b: State, c: State, d: State, tx: TxId)
    requires SendsFor(b, c, tx) && a.trace <= b.trace && c.trace <= d.trace
    ensures SendsFor(a, d, tx)
  {
    var i :| |b.trace| <= i < |c.trace| && c.trace[i].Sent? && c.trace[i].ballot.tx == tx;
    assert d.trace[i] == c.trace[i];
  }

  // Offered an event, the program votes for it exactly when its id is not on file as refused and was
  // neither processed nor voted when asked, and all four calls up to the send are answered.
  lemma CastSendsExactlyWhen(w: World, st: State, cur: int, terms: Terms, log: Log)
    ensures var tx := w.txId(log);
            SendsFor(st, CastVote(w, st, cur, terms, log).st, tx) <==>
              && tx !in st.reverted
              && !w.processed(st.clock, tx) && !w.voted(st.clock + 1, tx)
              && w.fate(st.clock).Answers? && w.fate(st.clock + 1).Answers?
              && w.fate(st.clock + 2).Answers? && w.fate(st.clock + 3).Answers?
  {
    hide VotingOnly;
    var tx := w.txId(log);
    var out := CastVote(w, st, cur, terms, log).st;
    if |out.trace| > |st.trace| {
      assert out.trace[|st.trace|].Sent? ==> out.trace[|st.trace|].ballot.tx == tx;
    }
  }

  // An id on file as refused, or seen by the chain for ever, is never sent again.
  lemma ClosedForGood(w: World, st: State, cfg: Config, runs: nat, tx: TxId)
    requires Closed(w, st, tx)
    ensures !SendsFor(st, History(w, st, cfg, runs), tx)
  {
    hide History, Attempt, OfAttempt;
    var end := History(w, st, cfg, runs);
    if SendsFor(st, end, tx) {
      var i :| |st.trace| <= i < |end.trace| && end.trace[i].Sent? && end.trace[i].ballot.tx == tx;
      var a, b := SentInSomeAttempt(w, st, cfg, runs, i);
      AskedInAttempt(w, cfg, a, b, end.trace[i]);
      assert false;
    }
  }

  // ---------------------------------------------------------------- a world that invites a vote

  // From tick `t` on every call answers, the event is there, and its id alone is not processed.
  ghost predicate Inviting(w: World, t: nat, log: Log) {
    && (forall s: nat | t <= s :: w.fate(s).Answers? && w.member(s) && !w.mainSyncing(s) && !w.sideSyncing(s))
    && (forall s: nat, from: int, to: int | t <= s && from <= log.blockNumber <= to :: log in w.logs(s, from, to))
    && (forall s: nat, l: Log | t <= s :: w.sideToken(s, l) == ZERO_ADDRESS)
    && (forall s: nat, token: Address | t <= s :: w.limits(s, token) == Limits(true, log.amount + 1, log.amount + 2))
    && (forall s: nat, tx: TxId | t <= s :: w.processed(s, tx) == w.voted(s, tx) == (tx != w.txId(log)))
  }

  // The scan would vote for the event, and may.
  predicate Votable(w: World, st: State, scan: Scan, log: Log) {
    && w.txId(log) !in st.reverted
    && match scan
       case Deep(_, _) => true
       case Shallow(_, _) => true
       case Nft(cur) => st.chainId.Some? && cur - log.blockNumber >= NftConfirmations(st.chainId.value)
       case Beat(_) => false
  }

  function OneEvent(w: World, st: State, scan: Scan, log: Log): Outcome
    requires !scan.Beat?
  {
    if scan.Nft? then ProcessNftLog(w, st, scan, log) else ProcessErc20Log(w, st, scan, log)
  }

  lemma EventSends(w: World, t: nat, st: State, scan: Scan, log: Log)
    requires Inviting(w, t, log) && t <= st.clock && Votable(w, st, scan, log)
    ensures SendsFor(st, OneEvent(w, st, scan, log).st, w.txId(log))
  {
    hide CastVote, VotingOnly;
    if scan.Nft? {
      CastSendsExactlyWhen(w, st, scan.cur, Flat(NftConfirmations(st.chainId.value)), log);
    } else {
      var st2 := Call(w, Call(w, st).st).st;
      var terms := Tiered(scan.conf, Limits(true, log.amount + 1, log.amount + 2));
      CastSendsExactlyWhen(w, st2, scan.cur, terms, log);
      SendsForWithin(st, st2, CastVote(w, st2, scan.cur, terms, log).st, OneEvent(w, st, scan, log).st, w.txId(log));
    }
  }

  // Another event is put off, skipped or found processed, unless it has the same id.
  ghost predicate SendsOrPasses(w: World, st: State, out: Outcome, scan: Scan, log: Log) {
    SendsFor(st, out.st, w.txId(log)) || (out.Done? && Votable(w, out.st, scan, log))
  }

  lemma CastSendsOrPasses(w: World, t: nat, st: State, scan: Scan, terms: Terms, other: Log, log: Log)
    requires Inviting(w, t, log) && t <= st.clock && Votable(w, st, scan, log)
    ensures SendsOrPasses(w, st, CastVote(w, st, scan.cur, terms, other), scan, log)
  {
    hide VotingOnly, VoteTransaction;
    if w.txId(other) == w.txId(log) {
      CastSendsExactlyWhen(w, st, scan.cur, terms, other);
    }
  }

  lemma OtherSendsOrPasses(w: World, t: nat, st: State, scan: Scan, other: Log, log: Log)
    requires Inviting(w, t, log) && t <= st.clock && Votable(w, st, scan, log)
    ensures SendsOrPasses(w, st, OneEvent(w, st, scan, other), scan, log)
  {
    hide CastVote, VotingOnly;
    if scan.Nft? {
      CastSendsOrPasses(w, t, st, scan, Flat(NftConfirmations(st.chainId.value)), other, log);
    } else {
      var st2 := Call(w, Call(w, st).st).st;
      var terms := Tiered(scan.conf, Limits(true, log.amount + 1, log.amount + 2));
      CastSendsOrPasses(w, t, st2, scan, terms, other, log);
      var cast := CastVote(w, st2, scan.cur, terms, other).st;
      if SendsFor(st2, cast, w.txId(log)) && OneEvent(w, st, scan, other).st == cast {
        SendsForWithin(st, st2, cast, cast, w.txId(log));
      }
    }
  }

  lemma {:induction false} EachSendsOrPasses(w: World, t: nat, st: State, scan: Scan, logs: seq<Log>, log: Log)
    requires Inviting(w, t, log) && t <= st.clock && Votable(w, st, scan, log)
    ensures SendsOrPasses(w, st, ProcessEach(w, st, scan, logs), scan, log)
    ensures log in logs ==> SendsFor(st, ProcessEach(w, st, scan, logs).st, w.txId(log))
    decreases logs
  {
    hide Inviting, ProcessNftLog, ProcessErc20Log, VotingOnly;
    if logs == [] {
    } else {
      var one := OneEvent(w, st, scan, logs[0]);
      var out := ProcessEach(w, st, scan, logs);
      OtherSendsOrPasses(w, t, st, scan, logs[0], log);
      if logs[0] == log {
        EventSends(w, t, st, scan, log);
      }
      if SendsFor(st, one.st, w.txId(log)) {
        SendsForWithin(st, st, one.st, out.st, w.txId(log));
      } else {
        EachSendsOrPasses(w, t, one.st, scan, logs[1..], log);
        if SendsFor(one.st, out.st, w.txId(log)) {
          SendsForWithin(st, one.st, out.st, out.st, w.txId(log));
        }
      }
    }
  }

  lemma PageSendsOrPasses(w: World, t: nat, st: State, scan: Scan, page: Page, log: Log)
    requires Inviting(w, t, log) && t <= st.clock && Votable(w, st, scan, log)
    ensures SendsOrPasses(w, st, FetchPage(w, st, scan, page), scan, log)
    ensures page.Covers(log.blockNumber) ==> SendsFor(st, FetchPage(w, st, scan, page).st, w.txId(log))
  {
    hide ProcessEach, VotingOnly, SendsFor;
    var asked := Note(st.(clock := st.clock + 2), Fetched(st.clock, scan, page));
    var logs := w.logs(st.clock, page.from, page.to);
    var each := ProcessEach(w, asked, scan, logs).st;
    EachSendsOrPasses(w, t, asked, scan, logs, log);
    if SendsFor(asked, each, w.txId(log)) {
      SendsForWithin(st, asked, each, FetchPage(w, st, scan, page).st, w.txId(log));
    }
  }

  // The pages before the event pass or send already, and the page with the event sends the vote.
  lemma {:induction false} PagesSend(w: World, t: nat, st: State, scan: Scan, pages: seq<Page>, log: Log)
    requires Inviting(w, t, log) && t <= st.clock && Votable(w, st, scan, log)
    requires InSomePage(pages, log.blockNumber)
    ensures SendsFor(st, FetchPages(w, st, scan, pages).st, w.txId(log))
    decreases pages
  {
    hide FetchPage, Inviting, Votable;
    var one := FetchPage(w, st, scan, pages[0]);
    var out := FetchPages(w, st, scan, pages).st;
    PageSendsOrPasses(w, t, st, scan, pages[0], log);
    if SendsFor(st, one.st, w.txId(log)) {
      SendsForWithin(st, st, one.st, out, w.txId(log));
    } else {
      var k :| 0 <= k < |pages| && pages[k].Covers(log.blockNumber);
      assert pages[1..][k - 1] == pages[k];
      PagesSend(w, t, one.st, scan, pages[1..], log);
      SendsForWithin(st, one.st, out, out, w.txId(log));
    }
  }

  lemma ScanSends(w: World, t: nat, st: State, scan: Scan, from: int, to: int, log: Log)
    requires Inviting(w, t, log) && t <= st.clock && Votable(w, st, scan, log)
    requires from < to && from <= log.blockNumber <= to
    ensures SendsFor(st, GetLogsAndProcess(w, st, scan, from, to).st, w.txId(log))
  {
    hide FetchPages, Pages;
    var st1 := Call(w, st).st;
    var out := GetLogsAndProcess(w, st, scan, from, to).st;
    BlockInExactlyOnePage(from, to, log.blockNumber);
    PagesSend(w, t, st1, scan, Pages(from, to), log);
    SendsForWithin(st, st1, out, out, w.txId(log));
  }

  lemma EmptyScan(w: World, st: State, scan: Scan, from: int, to: int)
    requires from >= to
    ensures GetLogsAndProcess(w, st, scan, from, to) == Done(st)
  {
  }

  // ---------------------------------------------------------------- continuing a world

  // The world `w` up to tick `t`, where the origin chain then stands still, at the given height, except
  // that it has the event; the event's id alone is not processed, and every vote is refused.
  function Continued(w: World, t: nat, log: Log, height: int, conf: Confirmations, readable: bool): World
    requires t > 0
  {
    World(
      fate := (s: nat) => if s < t then w.fate(s) else Answers,
      height := (s: nat) => if s < t then w.height(s) else height,
      mainSyncing := (s: nat) => s < t && w.mainSyncing(s),
      netId := (s: nat) => if s < t then w.netId(s) else 0,
      emitted := (s: nat, l) => if s < t then w.emitted(s, l) else l == log || w.emitted(t - 1, l),
      logs := (s: nat, from, to) =>
        if s < t then w.logs(s, from, to)
        else w.logs(t - 1, from, to) + if from <= log.blockNumber <= to then [log] else [],
      confirmations := (s: nat) => if s < t then w.confirmations(s) else conf,
      limits := (s: nat, token) => if s < t then w.limits(s, token) else Limits(true, log.amount + 1, log.amount + 2),
      sideToken := (s: nat, l) => if s < t then w.sideToken(s, l) else ZERO_ADDRESS,
      sideSyncing := (s: nat) => s < t && w.sideSyncing(s),
      member := (s: nat) => s >= t || w.member(s),
      txId := w.txId,
      processed := (s: nat, tx) => if s < t then w.processed(s, tx) else tx != w.txId(log),
      voted := (s: nat, tx) => if s < t then w.voted(s, tx) else tx != w.txId(log),
      delivery := (s: nat, tx) => if s < t then w.delivery(s, tx) else Refused,
      readable := (s: nat) => if s < t then w.readable(s) else readable)
  }

  lemma ContinuedIsFaithful(w: World, t: nat, log: Log, height: int, conf: Confirmations, readable: bool)
    requires Faithful(w) && t > 0
    ensures Faithful(Continued(w, t, log, height, conf, readable))
    ensures SameUntil(w, Continued(w, t, log, height, conf, readable), t)
  {
  }

  lemma ContinuedInvites(w: World, t: nat, log: Log, height: int, conf: Confirmations, readable: bool)
    requires t > 0
    ensures Inviting(Continued(w, t, log, height, conf, readable), t, log)
  {
  }

  // The event was never seen missing when it was already `depth` blocks deep.
  ghost predicate NeverGone(w: World, t: nat, depth: int, log: Log) {
    forall s: nat | s < t && w.height(s) - log.blockNumber >= depth :: w.emitted(s, log)
  }

  // From tick `t` on the world goes on as before: no other event disappears, the chain stays final at
  // every depth at which it was, unless the event itself was seen missing at that depth, and an
  // ERC20 federator can read its progress file.
  ghost predicate GoesOn(w: World, v: World, t: nat, cfg: Config, log: Log) {
    && (forall s: nat, l: Log | t <= s && t > 0 && w.emitted(t - 1, l) :: v.emitted(s, l))
    && (forall depth: int | Final(w, depth) && NeverGone(w, t, depth, log) :: Final(v, depth))
    && (cfg.kind == Erc20 ==> forall s: nat | t <= s :: v.readable(s))
  }

  lemma ContinuedGoesOn(w: World, t: nat, cfg: Config, log: Log, height: int, conf: Confirmations, readable: bool)
    requires t > 0 && (cfg.kind == Erc20 ==> readable)
    ensures GoesOn(w, Continued(w, t, log, height, conf, readable), t, cfg, log)
  {
    var v := Continued(w, t, log, height, conf, readable);
    forall depth: int | Final(w, depth) && NeverGone(w, t, depth, log)
      ensures Final(v, depth)
    {
      forall a: nat, b: nat, l: Log | a <= b && v.height(a) - l.blockNumber >= depth
        ensures v.emitted(b, l) == v.emitted(a, l)
      {
        if a < t <= b {
          assert w.emitted(t - 1, l) == w.emitted(a, l);
        }
      }
    }
  }

  // The height and confirmations that make the second pass of an ERC20 run cover the block, and the
  // first one empty.
  lemma Erc20RunSends(w: World, st: State, cfg: Config, log: Log) returns (height: int, conf: Confirmations)
    requires cfg.kind == Erc20 && w.txId(log) !in st.reverted && st.clock > 0
    ensures SendsFor(st, Run(Continued(w, st.clock, log, height, conf, true), st, cfg).st, w.txId(log))
  {
    hide GetLogsAndProcess, Inviting;
    var base := Progress(st, cfg);
    var toBlock := if log.blockNumber < base then log.blockNumber else base;
    var newToBlock := 1 + if log.blockNumber < base then base else log.blockNumber;
    height, conf := newToBlock, Confirmations(0, 0, newToBlock - toBlock);
    var v := Continued(w, st.clock, log, height, conf, true);
    var st4 := st.(clock := st.clock + 5);
    ContinuedInvites(w, st.clock, log, height, conf, true);
    EmptyScan(v, st4, Deep(height, conf), base + 1, toBlock);
    ScanSends(v, st.clock, st4, Shallow(height, conf), toBlock, newToBlock, log);
    assert Attempt(v, st, cfg) == GetLogsAndProcess(v, st4, Shallow(height, conf), toBlock, newToBlock);
  }

  lemma NftRunSends(w: World, st: State, cfg: Config, log: Log) returns (height: int, conf: Confirmations)
    requires cfg.kind == NonFungible && w.txId(log) !in st.reverted && st.clock > 0
    requires log.blockNumber > cfg.fromBlock
    ensures SendsFor(st, Run(Continued(w, st.clock, log, height, conf, false), st, cfg).st, w.txId(log))
  {
    hide GetLogsAndProcess, Inviting;
    var id := st.chainId.GetOr(0);
    var toBlock := log.blockNumber + 1;
    height, conf := toBlock + NftConfirmations(id), Confirmations(0, 0, 0);
    var v := Continued(w, st.clock, log, height, conf, false);
    var st1 := CheckSynced(v, GetCurrentChainId(v, Call(v, st).st).st).st;
    var st2 := st1.(clock := st1.clock + 1);
    ContinuedInvites(w, st.clock, log, height, conf, false);
    ScanSends(v, st.clock, st2, Nft(height), cfg.fromBlock + 1, toBlock, log);
    var scanned := GetLogsAndProcess(v, st2, Nft(height), cfg.fromBlock + 1, toBlock).st;
    assert Attempt(v, st, cfg).st == scanned;
    SendsForWithin(st, st2, scanned, Run(v, st, cfg).st, w.txId(log));
  }

  // ---------------------------------------------------------------- sent again

  // The history of `w` may go on so that its next run votes for the id.
  ghost predicate SentAgain(w: World, v: World, st: State, cfg: Config, runs: nat, tx: TxId) {
    var before := History(w, st, cfg, runs);
    && Faithful(v) && SameUntil(w, v, before.clock)
    && SendsFor(before, History(v, st, cfg, runs + 1), tx)
  }

  lemma NextRun(w: World, v: World, st: State, cfg: Config, runs: nat)
    requires SameUntil(w, v, History(w, st, cfg, runs).clock)
    ensures History(v, st, cfg, runs) == History(w, st, cfg, runs)
    ensures History(v, st, cfg, runs + 1) == History(v, History(w, st, cfg, runs), cfg, 1)
    ensures History(v, st, cfg, runs + 1) == Restart(Run(v, History(w, st, cfg, runs), cfg))
  {
    hide Run, SameUntil;
    var before := History(w, st, cfg, runs);
    HistoryIsCausal(w, v, st, cfg, runs, before.clock);
    assert History(v, before, cfg, 0) == before;
  }

  // The block of a vote is one its program can be made to scan again.
  lemma VotedBlock(w: World, st: State, cfg: Config, runs: nat, e: Event)
    requires Faithful(w) && Fresh(st)
    requires e in History(w, st, cfg, runs).trace && e.Sent?
    ensures cfg.kind != HeartbeatReader && e.ballot.tx == w.txId(e.ballot.log)
    ensures cfg.kind == NonFungible ==> e.ballot.log.blockNumber > cfg.fromBlock
  {
    hide History, Attempt;
    var i :| 0 <= i < |History(w, st, cfg, runs).trace| && History(w, st, cfg, runs).trace[i] == e;
    var a, b := SentInSomeAttempt(w, st, cfg, runs, i);
  }

  lemma SentBeforeNow(w: World, st: State, cfg: Config, runs: nat)
    requires Faithful(w) && Fresh(st)
    ensures forall e | e in History(w, st, cfg, runs).trace && e.Sent? :: e.at < History(w, st, cfg, runs).clock
  {
    hide History, Justified, Recorded, Lost, SameVote;
    HistoryIsSound(w, st, cfg, runs);
    var end := History(w, st, cfg, runs);
    forall e | e in end.trace && e.Sent?
      ensures e.at < end.clock
    {
      assert Truthful(w, end, e);
    }
  }

  // Unless the id is on file, there is a world to go on in that has the next run vote for it.
  lemma NextRunSends(w: World, st: State, cfg: Config, runs: nat, log: Log)
    returns (v: World, height: int, conf: Confirmations)
    requires Faithful(w) && History(w, st, cfg, runs).clock > 0 && w.txId(log) !in History(w, st, cfg, runs).reverted
    requires cfg.kind != HeartbeatReader && (cfg.kind == NonFungible ==> log.blockNumber > cfg.fromBlock)
    ensures v == Continued(w, History(w, st, cfg, runs).clock, log, height, conf, cfg.kind == Erc20)
    ensures SentAgain(w, v, st, cfg, runs, w.txId(log))
    ensures GoesOn(w, v, History(w, st, cfg, runs).clock, cfg, log)
  {
    hide History, Run, Faithful, SameUntil, Continued, GoesOn;
    var before, readable := History(w, st, cfg, runs), cfg.kind == Erc20;
    if cfg.kind == Erc20 {
      height, conf := Erc20RunSends(w, before, cfg, log);
    } else {
      height, conf := NftRunSends(w, before, cfg, log);
    }
    v := Continued(w, before.clock, log, height, conf, readable);
    ContinuedIsFaithful(w, before.clock, log, height, conf, readable);
    ContinuedGoesOn(w, before.clock, cfg, log, height, conf, readable);
    NextRun(w, v, st, cfg, runs);
    SendsForWithin(before, before, Run(v, before, cfg).st, History(v, st, cfg, runs + 1), w.txId(log));
  }

  // Main result: after any history, a vote already sent may be sent again by the very next run, as
  // the environment pleases, exactly when its id is not on file as refused.  Then it may be although
  // no other event disappears, the chain stays final, and for ERC20 the progress file is readable.
  lemma SentAgainExactlyWhen(w: World, st: State, cfg: Config, runs: nat, e: Event)
    requires Faithful(w) && Fresh(st)
    requires e in History(w, st, cfg, runs).trace && e.Sent?
    ensures (exists v: World :: SentAgain(w, v, st, cfg, runs, e.ballot.tx)) <==>
              e.ballot.tx !in History(w, st, cfg, runs).reverted
    ensures e.ballot.tx !in History(w, st, cfg, runs).reverted ==>
              exists v: World ::
                && SentAgain(w, v, st, cfg, runs, e.ballot.tx)
                && GoesOn(w, v, History(w, st, cfg, runs).clock, cfg, e.ballot.log)
  {
    hide History, SameUntil, Faithful, SendsFor, Continued, GoesOn;
    var before := History(w, st, cfg, runs);
    if e.ballot.tx in before.reverted {
      forall v: World
        ensures !SentAgain(w, v, st, cfg, runs, e.ballot.tx)
      {
        if SameUntil(w, v, before.clock) {
          NextRun(w, v, st, cfg, runs);
          ClosedForGood(v, before, cfg, 1, e.ballot.tx);
        }
      }
    } else {
      SentBeforeNow(w, st, cfg, runs);
      VotedBlock(w, st, cfg, runs, e);
      var v, _, _ := NextRunSends(w, st, cfg, runs, e.ballot.log);
    }
  }

  // An event that was voted at the depth at which the chain is final was never seen missing at it.
  lemma DeepVoteIsNeverGone(w: World, st: State, cfg: Config, runs: nat, e: Event, depth: int, t: nat)
    requires Faithful(w) && Fresh(st) && Final(w, depth)
    requires e in History(w, st, cfg, runs).trace && e.Sent?
    requires e.ballot.cur - e.ballot.log.blockNumber >= depth
    ensures NeverGone(w, t, depth, e.ballot.log)
  {
    hide History, Attempt;
    var i :| 0 <= i < |History(w, st, cfg, runs).trace| && History(w, st, cfg, runs).trace[i] == e;
    var a, b := SentInSomeAttempt(w, st, cfg, runs, i);
    var k :| |a.trace| <= k < |b.trace| && b.trace[k].Fetched? && b.trace[k].at >= a.clock
             && w.emitted(b.trace[k].at, e.ballot.log);
    assert w.emitted(a.clock, e.ballot.log);
  }

  // ---------------------------------------------------------------- with a chain that remembers

  // The chain has already shown the id as processed or voted, or it has mined our vote.
  ghost predicate Shown(w: World, st: State, tx: TxId) {
    || (exists s: nat :: s < st.clock && (w.processed(s, tx) || w.voted(s, tx)))
    || (exists e :: e in st.trace && e.Sent? && e.delivery.Mined? && e.ballot.tx == tx)
  }

  // The destination chain forgets nothing and shows every vote it has mined.
  ghost predicate Reliable(w: World, trace: seq<Event>) {
    Remembers(w) && AcksVisible(w, trace)
  }

  lemma ShownForGood(v: World, st: State, cfg: Config, tx: TxId)
    requires Shown(v, st, tx) && Reliable(v, History(v, st, cfg, 1).trace)
    requires forall e | e in st.trace && e.Sent? :: e.at < st.clock
    ensures !SendsFor(st, History(v, st, cfg, 1), tx)
  {
    hide History;
    var end := History(v, st, cfg, 1);
    VotesAreJudgedByTheirAttempt(v, st, cfg, 1);
    if s: nat :| s < st.clock && (v.processed(s, tx) || v.voted(s, tx)) {
      assert VisibleFrom(v, st.clock, tx);
    } else {
      var e :| e in st.trace && e.Sent? && e.delivery.Mined? && e.ballot.tx == tx;
      assert e in end.trace && VisibleFrom(v, e.at + 1, tx);
    }
    ClosedForGood(v, st, cfg, 1, tx);
  }

  lemma ShownAlike(w: World, v: World, st: State, tx: TxId)
    requires SameUntil(w, v, st.clock)
    ensures Shown(w, st, tx) ==> Shown(v, st, tx)
  {
  }

  // Every vote of the continued world is refused, so there is nothing new for the chain to show.
  lemma NewVotesAreRefused(v: World, t: nat, st: State, cfg: Config, i: nat)
    requires t <= st.clock && forall s: nat, tx: TxId | t <= s :: v.delivery(s, tx).Refused?
    requires |st.trace| <= i < |History(v, st, cfg, 1).trace| && History(v, st, cfg, 1).trace[i].Sent?
    ensures History(v, st, cfg, 1).trace[i].delivery.Refused?
  {
    hide History, Attempt, FromPage;
    var a, b := SentInSomeAttempt(v, st, cfg, 1, i);
  }

  lemma ContinuedIsReliable(
    w: World, st: State, cfg: Config, log: Log, height: int, conf: Confirmations, readable: bool)
    requires Reliable(w, st.trace) && !Shown(w, st, w.txId(log)) && st.clock > 0
    requires forall e | e in st.trace && e.Sent? :: e.at < st.clock
    ensures var v := Continued(w, st.clock, log, height, conf, readable); Reliable(v, History(v, st, cfg, 1).trace)
  {
    hide History, OwnAttempt;
    var v := Continued(w, st.clock, log, height, conf, readable);
    var end := History(v, st, cfg, 1).trace;
    VotesAreJudgedByTheirAttempt(v, st, cfg, 1);
    forall i | |st.trace| <= i < |end| && end[i].Sent?
      ensures end[i].delivery.Refused?
    {
      NewVotesAreRefused(v, st.clock, st, cfg, i);
    }
    forall e | e in end && e.Sent? && e.delivery.Mined?
      ensures VisibleFrom(v, e.at + 1, e.ballot.tx)
    {
      var i :| 0 <= i < |end| && end[i] == e;
      assert st.trace[i] == e && e in st.trace;
      assert VisibleFrom(w, e.at + 1, e.ballot.tx);
    }
  }

  // Main result: on a chain that forgets nothing and shows the votes it has mined, a vote already
  // sent may be sent again exactly when its id is not on file, was never seen processed or voted at
  // any tick so far, and no vote for it was mined.
  lemma SentAgainOnReliableChainExactlyWhen(w: World, st: State, cfg: Config, runs: nat, e: Event)
    requires Faithful(w) && Fresh(st)
    requires e in History(w, st, cfg, runs).trace && e.Sent? && Reliable(w, History(w, st, cfg, runs).trace)
    ensures
      var before := History(w, st, cfg, runs);
      (exists v: World ::
         SentAgain(w, v, st, cfg, runs, e.ballot.tx) && Reliable(v, History(v, st, cfg, runs + 1).trace))
      <==> e.ballot.tx !in before.reverted && !Shown(w, before, e.ballot.tx)
    ensures
      var before := History(w, st, cfg, runs);
      e.ballot.tx !in before.reverted && !Shown(w, before, e.ballot.tx) ==>
        exists v: World ::
          && SentAgain(w, v, st, cfg, runs, e.ballot.tx)
          && Reliable(v, History(v, st, cfg, runs + 1).trace)
          && GoesOn(w, v, before.clock, cfg, e.ballot.log)
  {
    hide History, SameUntil, Faithful, SendsFor, Continued, Reliable, Shown, GoesOn;
    var before, tx := History(w, st, cfg, runs), e.ballot.tx;
    SentBeforeNow(w, st, cfg, runs);
    if tx in before.reverted || Shown(w, before, tx) {
      forall v: World | SentAgain(w, v, st, cfg, runs, tx) && Reliable(v, History(v, st, cfg, runs + 1).trace)
        ensures false
      {
        NextRun(w, v, st, cfg, runs);
        ShownAlike(w, v, before, tx);
        if tx in before.reverted {
          ClosedForGood(v, before, cfg, 1, tx);
        } else {
          ShownForGood(v, before, cfg, tx);
        }
      }
    } else {
      VotedBlock(w, st, cfg, runs, e);
      var v, height, conf := NextRunSends(w, st, cfg, runs, e.ballot.log);
      NextRun(w, v, st, cfg, runs);
      ContinuedIsReliable(w, before, cfg, e.ballot.log, height, conf, cfg.kind == Erc20);
    }
  }

  // ---------------------------------------------------------------- every way to lose a vote

  lemma OneRun(w: World, st: State, cfg: Config)
    ensures History(w, st, cfg, 1) == Restart(Run(w, st, cfg))
  {
    hide Run;
    assert History(w, st, cfg, 0) == st;
  }

  lemma SecondVoteLosesFirst(w: World, v: World, st: State, e: Event, j: nat)
    requires SameUntil(w, v, st.clock) && e.Sent? && e.at < st.clock
    requires |st.trace| <= j < |History(v, st, FROM_ZERO, 1).trace|
    requires SameVote(e, History(v, st, FROM_ZERO, 1).trace[j])
    requires e.delivery.Refused? ==> e.at + 1 < st.clock && w.fate(e.at + 1) != Answers
    ensures Lost(v, e)
  {
    hide History, Attempt, OfAttempt;
    var a, b := SentInSomeAttempt(v, st, FROM_ZERO, 1, j);
    var f := History(v, st, FROM_ZERO, 1).trace[j];
    AskedInAttempt(v, FROM_ZERO, a, b, f);
    assert !v.processed(f.at - 3, e.ballot.tx) && !v.voted(f.at - 2, e.ballot.tx);
  }

  // Main result: in each of the four ways a first vote can be lost, there is a history of two runs in
  // which it is, and a second vote for the same id follows.
  lemma LostVoteIsSentAgain(delivery: Delivery) returns (w: World, i: nat, j: nat)
    ensures Faithful(w)
    ensures var trace := History(w, FIRST, FROM_ZERO, 2).trace;
            && i < j < |trace| && SameVote(trace[i], trace[j])
            && trace[i].delivery == delivery && Lost(w, trace[i])
  {
    hide History, Run, SameUntil, Continued;
    var none, limits := Confirmations(0, 0, 0), Limits(true, 2, 3);
    var first := OneEventWorld(none, limits, delivery);
    var e := EventSent(none, limits, delivery);
    OneEventRun(none, limits, delivery);
    OneRun(first, FIRST, FROM_ZERO);
    var before := History(first, FIRST, FROM_ZERO, 1);
    assert before.trace[1] == e;
    SentBeforeNow(first, FIRST, FROM_ZERO, 1);
    var height, conf;
    w, height, conf := NextRunSends(first, FIRST, FROM_ZERO, 1, EVENT);
    NextRun(first, w, FIRST, FROM_ZERO, 1);
    var end := History(w, FIRST, FROM_ZERO, 2);
    i := 1;
    j :| |before.trace| <= j < |end.trace| && end.trace[j].Sent? && end.trace[j].ballot.tx == e.ballot.tx;
    SecondVoteLosesFirst(first, w, before, e, j);
  }
}
