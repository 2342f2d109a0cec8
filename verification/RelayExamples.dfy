/**
 Concrete worlds and the runs in them, used to show that a property fails.
 */
module RelayExamples {
  import opened Options
  import opened Network
  import opened Paging
  import opened Relay
  import opened RelayProgress

  // A process that starts for the first time, and an ERC20 program configured to start at block zero.
  const FIRST := State(0, None, {}, None, [])
  const FROM_ZERO := Config(Erc20, 0)

  // A world in which every call answers, nobody has voted, and all tokens have the given limits.
  function CalmWorld(limits: Limits): World {
    World(
      fate := _ => Answers, height := _ => 0, mainSyncing := _ => false, netId := _ => 1,
      emitted := (_, _) => false, logs := (_, _, _) => [],
      confirmations := _ => Confirmations(0, 0, 0), limits := (_, _) => limits,
      sideToken := (_, _) => ZERO_ADDRESS, sideSyncing := _ => false, member := _ => true,
      txId := _ => "", processed := (_, _) => false, voted := (_, _) => false,
      delivery := (_, _) => Mined, readable := _ => true)
  }

  lemma SingleLog(w: World, st: State, scan: Scan, log: Log)
    requires scan.Deep? || scan.Shallow?
    requires w.fate(st.clock).Answers? && w.member(st.clock)
    ensures var one := ProcessErc20Log(w, st.(clock := st.clock + 1), scan, log);
            ProcessLogs(w, st, scan, [log]) == one
  {
    hide ProcessErc20Log, VotingOnly, Extends;
    var one := ProcessErc20Log(w, st.(clock := st.clock + 1), scan, log);
    assert [log][1..] == [];
    if one.Done? {
      assert ProcessEach(w, one.st, scan, [log][1..]) == one;
    }
  }

  // An ERC20 attempt whose first four calls are answered by nodes in sync comes to its two passes.
  lemma ReachesPasses(w: World, st: State)
    requires forall t: nat | st.clock <= t < st.clock + 4 ::
               w.fate(t).Answers? && !w.mainSyncing(t) && !w.sideSyncing(t)
    ensures Attempt(w, st, FROM_ZERO)
         == TwoPasses(w, st.(clock := st.clock + 4), FROM_ZERO, w.height(st.clock), w.confirmations(st.clock + 3))
  {
    hide TwoPasses;
  }

  // ---------------------------------------------------------------- one event

  const EVENT := Log(2, "", 0, "", 1, "")

  // A single event, of amount 1, in block 2, which is just deep enough for the first pass.  Its vote ends as
  // given; if it is refused, the call that would write that down fails.
  function OneEventWorld(conf: Confirmations, limits: Limits, delivery: Delivery): World {
    CalmWorld(limits).(
      fate := t => if t == 14 && delivery.Refused? then Fails else Answers,
      height := _ => conf.large + 2,
      confirmations := _ => conf,
      emitted := (_, log) => log == EVENT,
      logs := (_, from, to) => if from <= 2 <= to then [EVENT] else [],
      delivery := (_, _) => delivery)
  }

  function EventFetched(conf: Confirmations): Event {
    Fetched(6, Deep(conf.large + 2, conf), Page(1, 2))
  }

  function EventSent(conf: Confirmations, limits: Limits, delivery: Delivery): Event {
    Sent(13, Ballot(EVENT, "", conf.large + 2, Tiered(conf, limits), 10, 11), delivery)
  }

  lemma EventCast(conf: Confirmations, limits: Limits, delivery: Delivery)
    requires limits.allowed
    ensures var st := State(7, None, {}, None, [EventFetched(conf)]);
            var out := ProcessLogs(OneEventWorld(conf, limits, delivery), st, Deep(conf.large + 2, conf), [EVENT]);
            && out.st.trace == [EventFetched(conf), EventSent(conf, limits, delivery)]
            && out.st.reverted == {} && (delivery.Refused? ==> out.st.clock > 14)
  {
    hide VotingOnly, ProcessEach;
    var w, deep := OneEventWorld(conf, limits, delivery), Deep(conf.large + 2, conf);
    var st := State(7, None, {}, None, [EventFetched(conf)]);
    SingleLog(w, st, deep, EVENT);
    var b := Ballot(EVENT, "", conf.large + 2, Tiered(conf, limits), 10, 11);
    assert CastVote(w, st.(clock := 10), deep.cur, Tiered(conf, limits), EVENT)
        == VoteTransaction(w, st.(clock := 12), b);
  }

  lemma EventPage(conf: Confirmations, limits: Limits, delivery: Delivery)
    requires limits.allowed
    ensures var w, deep := OneEventWorld(conf, limits, delivery), Deep(conf.large + 2, conf);
            var out := FetchPages(w, FIRST.(clock := 6), deep, [Page(1, 2)]);
            && [EventFetched(conf), EventSent(conf, limits, delivery)] <= out.st.trace
            && out.st.reverted == {} && (delivery.Refused? ==> out.st.clock > 14)
  {
    hide ProcessLogs, VotingOnly;
    var w, deep := OneEventWorld(conf, limits, delivery), Deep(conf.large + 2, conf);
    var st := FIRST.(clock := 6);
    EventCast(conf, limits, delivery);
    assert Note(st.(clock := 7), EventFetched(conf)) == State(7, None, {}, None, [EventFetched(conf)]);
    var page := FetchPage(w, st, deep, Page(1, 2));
    assert [Page(1, 2)][1..] == [];
    assert page.Done? ==> FetchPages(w, page.st, deep, [Page(1, 2)][1..]) == page;
  }

  lemma EventPasses(conf: Confirmations, limits: Limits, delivery: Delivery)
    requires limits.allowed
    ensures var w := OneEventWorld(conf, limits, delivery);
            var page := FetchPages(w, FIRST.(clock := 6), Deep(conf.large + 2, conf), [Page(1, 2)]);
            var out := TwoPasses(w, FIRST.(clock := 4), FROM_ZERO, conf.large + 2, conf);
            Extends(page.st, out.st) && (conf.small == conf.large ==> out.st == page.st)
  {
    hide FetchPages, VotingOnly, Pages;
    PagePartition(1, 2);
    assert Pages(1, 2) == [Page(1, 2)];
  }

  // The first run fetches the page of the event and votes for it.
  lemma OneEventRun(conf: Confirmations, limits: Limits, delivery: Delivery)
    requires limits.allowed
    ensures var run := Run(OneEventWorld(conf, limits, delivery), FIRST, FROM_ZERO);
            && [EventFetched(conf), EventSent(conf, limits, delivery)] <= run.st.trace
            && (conf.small == conf.large ==> run.st.reverted == {})
            && (delivery.Refused? ==> run.st.clock > 14)
  {
    hide Attempt, TwoPasses, FetchPages;
    EventPage(conf, limits, delivery);
    EventPasses(conf, limits, delivery);
    ReachesPasses(OneEventWorld(conf, limits, delivery), FIRST);
  }

  // ---------------------------------------------------------------- a saved height that falls

  const NO_CONFIRMATIONS := Confirmations(0, 0, 0)
  const TEN_THOUSAND := Deep(10_000, NO_CONFIRMATIONS)

  // The chain is 10000 blocks high and empty, the progress file cannot be read, and the process is
  // killed at the given ticks.
  function UnreadableWorld(killed: set<nat>): World {
    CalmWorld(Limits(true, 2, 3)).(
      fate := t => if t in killed then Halts else Answers,
      height := _ => 10_000,
      readable := _ => false)
  }

  lemma TenThousandBlocks() returns (pages: seq<Page>)
    ensures pages == Pages(1, 10_000)
    ensures |pages| > 2 && pages[0] == Page(1, 1_000) && pages[1] == Page(1_001, 2_000)
  {
    hide Pages;
    pages := Pages(1, 10_000);
    PagePartition(1, 10_000);
    assert pages[0].Size() == pages[1].Size() == RECORDS_PER_PAGE;
  }

  // A process that reached the first page of a run saves it if it is not killed before.
  function AfterPage(st: State, page: Page): State {
    var fetched, saved := Fetched(st.clock, TEN_THOUSAND, page), Saved(st.clock + 2, page.to);
    st.(clock := st.clock + 3, lastBlock := Some(page.to), trace := st.trace + [fetched] + [saved])
  }

  lemma PageIsSaved(killed: set<nat>, st: State, page: Page)
    requires st.clock !in killed && st.clock + 1 !in killed && st.clock + 2 !in killed && page.to > 0
    ensures FetchPage(UnreadableWorld(killed), st, TEN_THOUSAND, page) == Done(AfterPage(st, page))
    ensures Saves(AfterPage(st, page).trace) == Saves(st.trace) + [page.to]
  {
    hide VotingOnly, Saves;
    var w, fetched := UnreadableWorld(killed), Fetched(st.clock, TEN_THOUSAND, page);
    var noted := Note(st.(clock := st.clock + 1), fetched);
    assert ProcessLogs(w, noted, TEN_THOUSAND, []) == Done(noted.(clock := st.clock + 2));
    LastEvent(st.trace, fetched);
    LastEvent(st.trace + [fetched], Saved(st.clock + 2, page.to));
  }

  lemma KilledAtOnce(killed: set<nat>, st: State, pages: seq<Page>)
    requires pages != [] && st.clock in killed
    ensures FetchPages(UnreadableWorld(killed), st, TEN_THOUSAND, pages)
         == Stopped(st.(clock := st.clock + 1), Crashed)
  {
  }

  lemma KilledAfterPage(killed: set<nat>, st: State, pages: seq<Page>)
    requires |pages| > 1 && pages[0].to > 0
    requires st.clock !in killed && st.clock + 1 !in killed && st.clock + 2 !in killed && st.clock + 3 in killed
    ensures var after := AfterPage(st, pages[0]);
            FetchPages(UnreadableWorld(killed), st, TEN_THOUSAND, pages)
            == Stopped(after.(clock := st.clock + 4), Crashed)
  {
    hide FetchPage;
    PageIsSaved(killed, st, pages[0]);
    var after := AfterPage(st, pages[0]);
    assert pages[1..] != [] && UnreadableWorld(killed).fate(after.clock) == Halts;
    KilledAtOnce(killed, after, pages[1..]);
  }

  // A run that is not killed before its first page.
  lemma RunReachesPages(killed: set<nat>, st: State)
    requires forall t | t in killed :: !(st.clock <= t < st.clock + 6)
    ensures var out := FetchPages(UnreadableWorld(killed), st.(clock := st.clock + 6), TEN_THOUSAND, Pages(1, 10_000));
            out.Stopped? && out.why.Crashed? ==> Run(UnreadableWorld(killed), st, FROM_ZERO) == out
  {
    hide FetchPages, Pages;
    ReachesPasses(UnreadableWorld(killed), st);
  }

  lemma NoSaves()
    ensures Saves([]) == []
  {
  }

  // The file holds 5000; the process is killed after the first page and leaves 1000.
  const AT_FIVE_THOUSAND := State(0, Some(5_000), {}, None, [])

  lemma SavedHeightFalls()
    ensures Faithful(UnreadableWorld({9}))
    ensures var run := Run(UnreadableWorld({9}), AT_FIVE_THOUSAND, FROM_ZERO).st;
            Saves(run.trace) == [1_000] && run.lastBlock == Some(1_000)
  {
    hide FetchPages, Pages, Run, Saves;
    var pages := TenThousandBlocks();
    var st := AT_FIVE_THOUSAND.(clock := 6);
    RunReachesPages({9}, AT_FIVE_THOUSAND);
    KilledAfterPage({9}, st, pages);
    PageIsSaved({9}, st, pages[0]);
    NoSaves();
  }

  lemma FirstPageFirst(w: World, st: State, pages: seq<Page>)
    requires pages != [] && FetchPage(w, st, TEN_THOUSAND, pages[0]).Done?
    ensures FetchPages(w, st, TEN_THOUSAND, pages)
         == FetchPages(w, FetchPage(w, st, TEN_THOUSAND, pages[0]).st, TEN_THOUSAND, pages[1..])
  {
    hide FetchPage;
  }

  const TWICE_KILLED: set<nat> := {12, 22}

  lemma TwoPagesAreSaved() returns (st: State)
    ensures Restart(Run(UnreadableWorld(TWICE_KILLED), FIRST, FROM_ZERO)) == st
    ensures st.clock == 13 && st.chainId == None && Saves(st.trace) == [1_000, 2_000]
  {
    hide FetchPages, Pages, Run, Saves;
    var pages := TenThousandBlocks();
    var first := FIRST.(clock := 6);
    var one := AfterPage(first, pages[0]);
    RunReachesPages(TWICE_KILLED, FIRST);
    PageIsSaved(TWICE_KILLED, first, pages[0]);
    PageIsSaved(TWICE_KILLED, one, pages[1]);
    KilledAfterPage(TWICE_KILLED, one, pages[1..]);
    FirstPageFirst(UnreadableWorld(TWICE_KILLED), first, pages);
    NoSaves();
    st := AfterPage(one, pages[1]).(clock := 13);
  }

  // In a history: the first run is killed after two pages, the second one after its first page.
  lemma SavesFallInHistory()
    ensures Faithful(UnreadableWorld(TWICE_KILLED))
    ensures Saves(History(UnreadableWorld(TWICE_KILLED), FIRST, FROM_ZERO, 2).trace) == [1_000, 2_000, 1_000]
  {
    hide FetchPages, Pages, Run, Saves;
    var w := UnreadableWorld(TWICE_KILLED);
    var pages := TenThousandBlocks();
    var again := TwoPagesAreSaved();
    RunReachesPages(TWICE_KILLED, again);
    KilledAfterPage(TWICE_KILLED, again.(clock := 19), pages);
    PageIsSaved(TWICE_KILLED, again.(clock := 19), pages[0]);
    assert History(w, FIRST, FROM_ZERO, 1) == again by {
      assert History(w, FIRST, FROM_ZERO, 0) == FIRST;
    }
  }

  // ---------------------------------------------------------------- a block that is not scanned

  // At height 1, with no confirmations to wait for, an event in block 1 is the only block pending.
  const LONE_LOG := Log(1, "", 0, "", 1, "")

  function LoneBlockWorld(): World {
    CalmWorld(Limits(true, 2, 3)).(
      height := _ => 1,
      emitted := (_, log) => log == LONE_LOG,
      logs := (_, from, to) => if from <= 1 <= to then [LONE_LOG] else [])
  }

  // The run completes and has asked for nothing.
  lemma LoneBlockIsNotScanned()
    ensures Faithful(LoneBlockWorld()) && forall t: nat :: LoneBlockWorld().emitted(t, LONE_LOG)
    ensures var run := Run(LoneBlockWorld(), FIRST, FROM_ZERO);
            run.Done? && run.st.trace == [] && run.st.lastBlock == None
  {
    var w := LoneBlockWorld();
    assert TwoPasses(w, FIRST.(clock := 4), FROM_ZERO, 1, Confirmations(0, 0, 0)) == Done(FIRST.(clock := 5));
    assert Attempt(w, FIRST, FROM_ZERO) == Done(FIRST.(clock := 5));
  }
}
