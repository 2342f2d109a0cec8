/**
 Running again.  A vote is sent twice only when the first one was lost; a second run in an
 unchanged world does nothing; and what the second pass puts off is not forgotten.
 */
module RelayRepeat {
  import opened Network
  import opened Paging
  import opened Relay
  import opened RelaySafety
  import opened RelayCoverage
  import opened RelayProgress

  // ---------------------------------------------------------------- at most one vote

  // The outcome of every vote of the trace reached the process or the destination chain.
  ghost predicate NoVoteLost(w: World, trace: seq<Event>) {
    forall e | e in trace && e.Sent? ::
      match e.delivery
      case Mined => VisibleFrom(w, e.at + 1, e.ballot.tx)
      case Refused => w.fate(e.at + 1) == Answers
      case _ => false
  }

  lemma ArrivedIsNotLost(w: World, e: Event)
    requires e.Sent? && NoVoteLost(w, [e])
    ensures !Lost(w, e)
  {
  }

  // Main result: each id is voted at most once in a whole history, if no vote is lost.
  lemma AtMostOneVote(w: World, st: State, cfg: Config, runs: nat, i: nat, j: nat)
    requires Faithful(w) && Fresh(st)
    requires NoVoteLost(w, History(w, st, cfg, runs).trace)
    requires i < j < |History(w, st, cfg, runs).trace|
    ensures !SameVote(History(w, st, cfg, runs).trace[i], History(w, st, cfg, runs).trace[j])
  {
    hide History, Justified, Recorded;
    HistoryIsSound(w, st, cfg, runs);
    var e := History(w, st, cfg, runs).trace[i];
    if e.Sent? {
      ArrivedIsNotLost(w, e);
    }
  }

  // ---------------------------------------------------------------- a second run

  // From tick `t` on the chains, the limits and the disk answer as they did at `t`.
  ghost predicate Unchanged(w: World, t: nat) {
    && (forall t': nat | t <= t' :: w.height(t') == w.height(t) && w.readable(t'))
    && (forall t': nat | t <= t' :: w.confirmations(t') == w.confirmations(t))
    && (forall t': nat, log: Log | t <= t' :: w.emitted(t', log) == w.emitted(t, log))
    && (forall t': nat, log: Log | t <= t' :: w.sideToken(t', log) == w.sideToken(t, log))
    && (forall t': nat, token: Address | t <= t' :: w.limits(t', token) == w.limits(t, token))
  }

  ghost predicate AcksVisible(w: World, trace: seq<Event>) {
    forall e | e in trace && e.Sent? && e.delivery.Mined? :: VisibleFrom(w, e.at + 1, e.ballot.tx)
  }

  // From now on a vote for the id cannot be sent.
  ghost predicate Closed(w: World, st: State, tx: TxId) {
    tx in st.reverted || VisibleFrom(w, st.clock, tx)
  }

  function LimitsAt(w: World, t: nat, log: Log): Limits {
    w.limits(t, LimitsToken(log, w.sideToken(t, log)))
  }

  // In the world as it is at tick `t`, the second pass has nothing left to do for the event.
  ghost predicate Resolved(w: World, t: nat, st: State, scan: Scan, log: Log)
    requires scan.Shallow?
  {
    Closed(w, st, w.txId(log)) || Defers(scan.cur, scan.conf, LimitsAt(w, t, log), log)
  }

  lemma ResolvedLater(w: World, t: nat, a: State, b: State, scan: Scan)
    requires Extends(a, b) && scan.Shallow?
    ensures forall log | Resolved(w, t, a, scan, log) :: Resolved(w, t, b, scan, log)
  {
  }

  lemma CastCloses(w: World, st: State, cur: int, terms: Terms, log: Log, whole: seq<Event>)
    requires Remembers(w) && AcksVisible(w, whole)
    requires CastVote(w, st, cur, terms, log).Done? && CastVote(w, st, cur, terms, log).st.trace <= whole
    ensures Closed(w, CastVote(w, st, cur, terms, log).st, w.txId(log))
  {
    hide VotingOnly;
    var out := CastVote(w, st, cur, terms, log);
    var e := out.st.trace[|st.trace|];
    if w.txId(log) !in out.st.reverted {
      assert whole[|st.trace|] == e;
      assert e in whole;
    }
  }

  lemma {:induction false} EachResolved(w: World, t: nat, st: State, scan: Scan, logs: seq<Log>, whole: seq<Event>)
    requires Remembers(w) && AcksVisible(w, whole) && Unchanged(w, t) && t <= st.clock && scan.Shallow?
    requires ProcessEach(w, st, scan, logs).Done? && ProcessEach(w, st, scan, logs).st.trace <= whole
    ensures forall log | log in logs :: Resolved(w, t, ProcessEach(w, st, scan, logs).st, scan, log)
    decreases logs
  {
    hide VotingOnly, CastVote, Remembers, AcksVisible, Closed;
    if logs == [] {
    } else {
      var log := logs[0];
      var one := ProcessErc20Log(w, st, scan, log);
      var st1 := Call(w, st).st;
      var st2 := Call(w, st1).st;
      if !Defers(scan.cur, scan.conf, LimitsAt(w, t, log), log) {
        CastCloses(w, st2, scan.cur, Tiered(scan.conf, LimitsAt(w, t, log)), log, whole);
      }
      EachResolved(w, t, one.st, scan, logs[1..], whole);
      ResolvedLater(w, t, one.st, ProcessEach(w, st, scan, logs).st, scan);
    }
  }

  // All events of a block range are resolved.
  ghost predicate RangeResolved(w: World, t: nat, st: State, scan: Scan, from: int, to: int)
    requires scan.Shallow?
  {
    forall log: Log | from <= log.blockNumber <= to && w.emitted(t, log) :: Resolved(w, t, st, scan, log)
  }

  lemma SameView(w: World, t: nat, t': nat, log: Log)
    requires Unchanged(w, t) && t <= t'
    ensures w.emitted(t', log) == w.emitted(t, log)
    ensures LimitsAt(w, t', log) == LimitsAt(w, t, log)
  {
  }

  lemma {:induction false} PagesResolved(w: World, t: nat, st: State, scan: Scan, pages: seq<Page>, whole: seq<Event>)
    requires Faithful(w) && Remembers(w) && AcksVisible(w, whole) && Unchanged(w, t) && t <= st.clock
    requires scan.Shallow?
    requires FetchPages(w, st, scan, pages).Done? && FetchPages(w, st, scan, pages).st.trace <= whole
    ensures forall page | page in pages ::
              RangeResolved(w, t, FetchPages(w, st, scan, pages).st, scan, page.from, page.to)
    decreases pages
  {
    hide VotingOnly, Remembers, AcksVisible, Resolved, ProcessEach, Unchanged;
    if pages == [] {
    } else {
      var page := pages[0];
      var out := FetchPages(w, st, scan, pages);
      var noted := Note(st.(clock := st.clock + 1), Fetched(st.clock, scan, page));
      var logs := w.logs(st.clock, page.from, page.to);
      var processed := ProcessLogs(w, noted, scan, logs);
      EachResolved(w, t, Call(w, noted).st, scan, logs, whole);
      ResolvedLater(w, t, processed.st, out.st, scan);
      forall log: Log | page.from <= log.blockNumber <= page.to && w.emitted(t, log)
        ensures Resolved(w, t, out.st, scan, log)
      {
        SameView(w, t, st.clock, log);
        assert log in logs;
      }
      PagesResolved(w, t, processed.st, scan, pages[1..], whole);
    }
  }

  // Nothing durable changed and no vote was sent.
  ghost predicate NothingDone(a: State, b: State) {
    && b.lastBlock == a.lastBlock
    && b.reverted == a.reverted
    && a.trace <= b.trace
    && forall i | |a.trace| <= i < |b.trace| :: !b.trace[i].Sent?
  }

  lemma ClosedCast(w: World, st: State, cur: int, terms: Terms, log: Log)
    requires Closed(w, st, w.txId(log))
    ensures NothingDone(st, CastVote(w, st, cur, terms, log).st)
  {
  }

  lemma {:induction false} ResolvedEach(w: World, t: nat, st: State, scan: Scan, logs: seq<Log>)
    requires Unchanged(w, t) && t <= st.clock && scan.Shallow?
    requires forall log | log in logs :: Resolved(w, t, st, scan, log)
    ensures NothingDone(st, ProcessEach(w, st, scan, logs).st)
    decreases logs
  {
    hide VotingOnly, CastVote, Closed;
    if logs == [] {
    } else {
      var log := logs[0];
      var st2 := Call(w, Call(w, st).st).st;
      var one := ProcessErc20Log(w, st, scan, log);
      assert Resolved(w, t, st, scan, log);
      ResolvedLater(w, t, st, st2, scan);
      if Closed(w, st2, w.txId(log)) {
        ClosedCast(w, st2, scan.cur, Tiered(scan.conf, LimitsAt(w, t, log)), log);
      }
      assert NothingDone(st, one.st);
      if one.Done? {
        ResolvedLater(w, t, st, one.st, scan);
        ResolvedEach(w, t, one.st, scan, logs[1..]);
      }
    }
  }

  lemma {:induction false} ResolvedPages(w: World, t: nat, st: State, scan: Scan, pages: seq<Page>)
    requires Faithful(w) && Unchanged(w, t) && t <= st.clock && scan.Shallow?
    requires forall page | page in pages :: RangeResolved(w, t, st, scan, page.from, page.to)
    ensures NothingDone(st, FetchPages(w, st, scan, pages).st)
    decreases pages
  {
    hide VotingOnly, Resolved, ProcessEach, Unchanged;
    if pages == [] || !w.fate(st.clock).Answers? {
    } else {
      var page := pages[0];
      var noted := Note(st.(clock := st.clock + 1), Fetched(st.clock, scan, page));
      var logs := w.logs(st.clock, page.from, page.to);
      var st2 := Call(w, noted).st;
      ResolvedLater(w, t, st, st2, scan);
      forall log | log in logs
        ensures Resolved(w, t, st2, scan, log)
      {
        FetchedEventIsReal(w, st.clock, page, log);
        SameView(w, t, st.clock, log);
        assert RangeResolved(w, t, st, scan, page.from, page.to);
      }
      ResolvedEach(w, t, st2, scan, logs);
      var processed := ProcessLogs(w, noted, scan, logs);
      if processed.Done? {
        ResolvedLater(w, t, st, processed.st, scan);
        ResolvedPages(w, t, processed.st, scan, pages[1..]);
      }
    }
  }

  // The second pass of a completed run leaves no event of its range unresolved.
  lemma SecondPassResolves(w: World, t: nat, st: State, cfg: Config, cur: int, conf: Confirmations)
    requires Faithful(w) && Remembers(w) && Unchanged(w, t) && t <= st.clock
    requires TwoPasses(w, st, cfg, cur, conf).Done? && AcksVisible(w, TwoPasses(w, st, cfg, cur, conf).st.trace)
    requires cur - conf.large < cur - conf.small
    ensures forall page | page in Pages(cur - conf.large, cur - conf.small) ::
              RangeResolved(w, t, TwoPasses(w, st, cfg, cur, conf).st, Shallow(cur, conf), page.from, page.to)
  {
    hide VotingOnly, Resolved, Pages, FetchPages, AcksVisible, Remembers, Faithful;
    var toBlock, newToBlock := cur - conf.large, cur - conf.small;
    var mid := GetLogsAndProcess(w, Call(w, st).st, Deep(cur, conf), LastProcessed(w, st, cfg) + 1, toBlock).st;
    PagesResolved(w, t, Call(w, mid).st, Shallow(cur, conf), Pages(toBlock, newToBlock),
                  TwoPasses(w, st, cfg, cur, conf).st.trace);
  }

  // Main result: medium and small amounts do not wait for the large depth.  In a world that stands
  // still, a completed run leaves every event between its two targets that is not large and as deep
  // as its tier requires with a vote on the chain, an execution, or an entry in the reverted file.
  lemma RecentEventsAreDealtWith(
    w: World, t: nat, st: State, cfg: Config, cur: int, conf: Confirmations, log: Log)
    requires Faithful(w) && Remembers(w) && Unchanged(w, t) && t <= st.clock
    requires TwoPasses(w, st, cfg, cur, conf).Done? && AcksVisible(w, TwoPasses(w, st, cfg, cur, conf).st.trace)
    requires cur - conf.large <= log.blockNumber <= cur - conf.small && conf.small < conf.large
    requires w.emitted(t, log) && !MustWait(cur, Tiered(conf, LimitsAt(w, t, log)), log)
    ensures Closed(w, TwoPasses(w, st, cfg, cur, conf).st, w.txId(log))
  {
    hide TwoPasses, Pages, Remembers, Faithful, Unchanged, AcksVisible, Closed;
    var toBlock, newToBlock := cur - conf.large, cur - conf.small;
    SecondPassResolves(w, t, st, cfg, cur, conf);
    BlockInExactlyOnePage(toBlock, newToBlock, log.blockNumber);
    var pages := Pages(toBlock, newToBlock);
    var k :| 0 <= k < |pages| && pages[k].Covers(log.blockNumber);
    assert pages[k] in pages;
    assert Resolved(w, t, TwoPasses(w, st, cfg, cur, conf).st, Shallow(cur, conf), log);
  }

  // The two passes, after a completed run in an unchanged world.
  lemma SecondTwoPasses(w: World, t: nat, st: State, again: State, cfg: Config, cur: int, conf: Confirmations)
    requires Faithful(w) && Remembers(w) && Unchanged(w, t) && t <= st.clock
    requires var one := TwoPasses(w, st, cfg, cur, conf);
             && one.Done? && AcksVisible(w, one.st.trace)
             && Extends(one.st, again) && NothingDone(one.st, again)
    ensures NothingDone(again, TwoPasses(w, again, cfg, cur, conf).st)
  {
    hide VotingOnly, Resolved, Pages, FetchPages, AcksVisible, Remembers, Faithful;
    var toBlock, newToBlock := cur - conf.large, cur - conf.small;
    var one := TwoPasses(w, st, cfg, cur, conf).st;
    LagsByAtMostOne(w, st, cfg, cur, conf);
    assert w.readable(again.clock);
    assert LastProcessed(w, again, cfg) == Progress(one, cfg);
    if toBlock < newToBlock {
      SecondPassResolves(w, t, st, cfg, cur, conf);
      var st2 := Call(w, Call(w, again).st).st;
      ResolvedLater(w, t, one, st2, Shallow(cur, conf));
      ResolvedPages(w, t, st2, Shallow(cur, conf), Pages(toBlock, newToBlock));
    }
  }

  // Main result: after a completed run, another run in an unchanged world sends no vote and leaves
  // both files as they are, even if it is cut short.
  lemma SecondRunDoesNothing(w: World, st: State, cfg: Config)
    requires cfg.kind == Erc20
    requires Faithful(w) && Remembers(w) && Unchanged(w, st.clock)
    requires Run(w, st, cfg).Done? && AcksVisible(w, Run(w, st, cfg).st.trace)
    ensures NothingDone(Run(w, st, cfg).st, Run(w, Run(w, st, cfg).st, cfg).st)
  {
    hide TwoPasses, VotingOnly, AcksVisible, Remembers, Faithful;
    var one := Run(w, st, cfg).st;
    var synced := CheckSynced(w, Call(w, st).st).st;
    var cur, conf := w.height(st.clock), w.confirmations(st.clock);
    var synced' := CheckSynced(w, Call(w, one).st);
    assert w.confirmations(synced.clock) == conf && w.height(one.clock) == cur;
    if w.fate(one.clock).Answers? && synced'.Done? {
      assert w.confirmations(synced'.st.clock) == conf;
      SecondTwoPasses(w, st.clock, Call(w, synced).st, Call(w, synced'.st).st, cfg, cur, conf);
    }
  }
}
