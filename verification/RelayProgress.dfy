/**
 What a run fetches and what it saves, exactly.  The page loops of the three programs fetch the
 pages of `Paging.Pages` in order; the two ERC20 passes meet in one block and leave no gap; the
 persisted height only rises, and stays at most one block behind.
 */
module RelayProgress {
  import opened Options
  import opened Network
  import opened Paging
  import opened Relay
  import opened RelaySafety
  import opened RelayCoverage

  datatype Fetch = Fetch(scan: Scan, page: Page)

  // The page requests of a trace, in order.
  function Fetches(trace: seq<Event>): seq<Fetch> {
    if trace == [] then []
    else
      var e := trace[|trace| - 1];
      Fetches(trace[..|trace| - 1]) + if e.Fetched? then [Fetch(e.scan, e.page)] else []
  }

  // The heights written to the progress file, in order.
  function Saves(trace: seq<Event>): seq<int> {
    if trace == [] then []
    else
      var e := trace[|trace| - 1];
      Saves(trace[..|trace| - 1]) + if e.Saved? then [e.height] else []
  }

  function AllOf(scan: Scan, pages: seq<Page>): seq<Fetch> {
    seq(|pages|, i requires 0 <= i < |pages| => Fetch(scan, pages[i]))
  }

  function Ends(pages: seq<Page>): seq<int> {
    seq(|pages|, i requires 0 <= i < |pages| => pages[i].to)
  }

  lemma {:induction false} QuietSuffix(a: seq<Event>, b: seq<Event>)
    requires a <= b
    requires forall i | |a| <= i < |b| :: !b[i].Fetched? && !b[i].Saved?
    ensures Fetches(b) == Fetches(a) && Saves(b) == Saves(a)
    decreases |b|
  {
    if |a| == |b| {
      assert a == b;
    } else {
      QuietSuffix(a, b[..|b| - 1]);
    }
  }

  lemma LastEvent(trace: seq<Event>, e: Event)
    ensures Fetches(trace + [e]) == Fetches(trace) + if e.Fetched? then [Fetch(e.scan, e.page)] else []
    ensures Saves(trace + [e]) == Saves(trace) + if e.Saved? then [e.height] else []
  {
  }

  // ---------------------------------------------------------------- one page

  // One page: a request, and, when the events went through, a save unless it is the second pass.
  lemma OnePage(w: World, st: State, scan: Scan, page: Page)
    requires w.fate(st.clock).Answers?
    ensures var noted := Note(st.(clock := st.clock + 1), Fetched(st.clock, scan, page));
            var processed := ProcessLogs(w, noted, scan, w.logs(st.clock, page.from, page.to)).st;
            && Fetches(processed.trace) == Fetches(st.trace) + [Fetch(scan, page)]
            && Saves(processed.trace) == Saves(st.trace)
            && processed.lastBlock == st.lastBlock
  {
    hide ProcessLogs;
    var noted := Note(st.(clock := st.clock + 1), Fetched(st.clock, scan, page));
    var processed := ProcessLogs(w, noted, scan, w.logs(st.clock, page.from, page.to)).st;
    LastEvent(st.trace, Fetched(st.clock, scan, page));
    QuietSuffix(noted.trace, processed.trace);
  }

  lemma OneSave(w: World, st: State, scan: Scan, value: int)
    requires value != 0
    ensures var out := SaveProgress(w, st, scan, value);
            && Fetches(out.st.trace) == Fetches(st.trace)
            && (out.Done? ==> out.st.lastBlock == Some(value) && Saves(out.st.trace) == Saves(st.trace) + [value])
            && (!out.Done? ==> out.st.lastBlock == st.lastBlock && Saves(out.st.trace) == Saves(st.trace))
  {
  }

  // ---------------------------------------------------------------- all pages

  ghost predicate Nonzero(pages: seq<Page>) {
    forall page | page in pages :: page.to != 0
  }

  // `n` pages were requested and `m` of them saved; a scan that completes does all of both.
  ghost predicate Progressed(a: State, b: State, scan: Scan, pages: seq<Page>, n: nat, m: nat) {
    && m <= n <= |pages| && n <= m + 1
    && Fetches(b.trace) == Fetches(a.trace) + AllOf(scan, pages[..n])
    && Saves(b.trace) == Saves(a.trace) + Ends(pages[..m])
    && b.lastBlock == if m == 0 then a.lastBlock else Some(pages[m - 1].to)
  }

  lemma ProgressedOnce(a: State, b: State, c: State, scan: Scan, pages: seq<Page>, n: nat, m: nat)
    requires pages != []
    requires Fetches(b.trace) == Fetches(a.trace) + [Fetch(scan, pages[0])]
    requires Saves(b.trace) == Saves(a.trace) + [pages[0].to]
    requires b.lastBlock == Some(pages[0].to)
    requires Progressed(b, c, scan, pages[1..], n, m)
    ensures Progressed(a, c, scan, pages, n + 1, m + 1)
  {
  }

  lemma NonzeroTail(pages: seq<Page>)
    requires Nonzero(pages) && pages != []
    ensures pages[0].to != 0 && Nonzero(pages[1..])
  {
  }

  // What one page of a pass that saves requests and saves.
  lemma PageProgress(w: World, st: State, scan: Scan, page: Page)
    requires !scan.Shallow? && page.to != 0
    ensures var out := FetchPage(w, st, scan, page);
            && Fetches(out.st.trace)
               == Fetches(st.trace) + (if w.fate(st.clock).Answers? then [Fetch(scan, page)] else [])
            && Saves(out.st.trace) == Saves(st.trace) + (if out.Done? then [page.to] else [])
            && out.st.lastBlock == (if out.Done? then Some(page.to) else st.lastBlock)
            && (out.Done? ==> w.fate(st.clock).Answers?)
  {
    hide ProcessLogs, SaveProgress, VotingOnly, Fetches, Saves;
    if w.fate(st.clock).Answers? {
      var noted := Note(st.(clock := st.clock + 1), Fetched(st.clock, scan, page));
      var processed := ProcessLogs(w, noted, scan, w.logs(st.clock, page.from, page.to));
      OnePage(w, st, scan, page);
      if processed.Done? {
        OneSave(w, processed.st, scan, page.to);
      }
    }
  }

  lemma ProgressedNone(a: State, b: State, scan: Scan, pages: seq<Page>, n: nat)
    requires n <= 1 && n <= |pages| && b.lastBlock == a.lastBlock
    requires Fetches(b.trace) == Fetches(a.trace) + (if n == 1 then [Fetch(scan, pages[0])] else [])
    requires Saves(b.trace) == Saves(a.trace) + []
    ensures Progressed(a, b, scan, pages, n, 0)
  {
    hide Fetches, Saves;
    assert pages[..n] == if n == 1 then [pages[0]] else [];
    assert AllOf(scan, pages[..n]) == if n == 1 then [Fetch(scan, pages[0])] else [];
    assert Ends(pages[..0]) == [];
  }

  lemma {:induction false} ScanProgress(w: World, st: State, scan: Scan, pages: seq<Page>)
    returns (n: nat, m: nat)
    requires !scan.Shallow? && Nonzero(pages)
    ensures var out := FetchPages(w, st, scan, pages);
            && Progressed(st, out.st, scan, pages, n, m)
            && (out.Done? ==> m == |pages|)
    decreases pages
  {
    hide FetchPage, Fetches, Saves, Nonzero, Progressed;
    n, m := 0, 0;
    if pages == [] {
      ProgressedNone(st, st, scan, pages, 0);
    } else {
      var one := FetchPage(w, st, scan, pages[0]);
      NonzeroTail(pages);
      PageProgress(w, st, scan, pages[0]);
      if one.Done? {
        var n', m' := ScanProgress(w, one.st, scan, pages[1..]);
        ProgressedOnce(st, one.st, FetchPages(w, one.st, scan, pages[1..]).st, scan, pages, n', m');
        n, m := n' + 1, m' + 1;
      } else {
        n := if w.fate(st.clock).Answers? then 1 else 0;
        ProgressedNone(st, one.st, scan, pages, n);
      }
    }
  }

  // The second pass requests pages and saves none.
  lemma {:induction false} SecondScanProgress(w: World, st: State, scan: Scan, pages: seq<Page>)
    returns (n: nat)
    requires scan.Shallow?
    ensures var out := FetchPages(w, st, scan, pages);
            && n <= |pages| && (out.Done? ==> n == |pages|)
            && Fetches(out.st.trace) == Fetches(st.trace) + AllOf(scan, pages[..n])
            && Saves(out.st.trace) == Saves(st.trace)
            && out.st.lastBlock == st.lastBlock
    decreases pages
  {
    hide ProcessLogs, VotingOnly, Fetches, Saves;
    n := 0;
    assert AllOf(scan, pages[..0]) == [];
    if pages == [] || !w.fate(st.clock).Answers? {
    } else {
      var page := pages[0];
      var noted := Note(st.(clock := st.clock + 1), Fetched(st.clock, scan, page));
      var processed := ProcessLogs(w, noted, scan, w.logs(st.clock, page.from, page.to));
      OnePage(w, st, scan, page);
      n := 1;
      assert pages[..1] == [page] && AllOf(scan, pages[..1]) == [Fetch(scan, page)];
      if processed.Done? {
        var n' := SecondScanProgress(w, processed.st, scan, pages[1..]);
        assert pages[..n' + 1] == [page] + pages[1..][..n'];
        assert AllOf(scan, pages[..n' + 1]) == [Fetch(scan, page)] + AllOf(scan, pages[1..][..n']);
        n := n' + 1;
      }
    }
  }

  // ---------------------------------------------------------------- the two passes

  lemma PositivePages(from: int, to: int)
    requires from > 0
    ensures Nonzero(Pages(from, to))
  {
    hide Pages;
    PagesEndInRange(from, to);
  }

  // GetLogsAndProcess on a range that starts above zero.
  lemma ScanRange(w: World, st: State, scan: Scan, from: int, to: int)
    returns (n: nat, m: nat)
    requires scan.Shallow? || from > 0
    ensures var out := GetLogsAndProcess(w, st, scan, from, to);
            && n <= |Pages(from, to)| && m <= |Pages(from, to)|
            && (out.Done? ==> n == |Pages(from, to)| && (!scan.Shallow? ==> m == n))
            && Fetches(out.st.trace) == Fetches(st.trace) + AllOf(scan, Pages(from, to)[..n])
            && (scan.Shallow? ==> m == 0)
            && Saves(out.st.trace) == Saves(st.trace) + Ends(Pages(from, to)[..m])
            && out.st.lastBlock == if m == 0 then st.lastBlock else Some(Pages(from, to)[m - 1].to)
  {
    hide FetchPages, Pages, Fetches, Saves;
    var pages := Pages(from, to);
    PagePartition(from, to);
    n, m := 0, 0;
    assert AllOf(scan, pages[..0]) == [] && Ends(pages[..0]) == [];
    if from < to && w.fate(st.clock).Answers? {
      var st1 := Call(w, st).st;
      if scan.Shallow? {
        n := SecondScanProgress(w, st1, scan, pages);
      } else {
        PositivePages(from, to);
        n, m := ScanProgress(w, st1, scan, pages);
      }
    }
  }

  // Main result: a run that completes requests exactly the pages of its two ranges, in order.
  lemma CompletedRunFetches(w: World, st: State, cfg: Config, cur: int, conf: Confirmations)
    requires TwoPasses(w, st, cfg, cur, conf).Done?
    ensures var base := LastProcessed(w, st, cfg);
            var out := TwoPasses(w, st, cfg, cur, conf).st;
            Fetches(out.trace) == Fetches(st.trace)
                                  + AllOf(Deep(cur, conf), Pages(base + 1, cur - conf.large))
                                  + AllOf(Shallow(cur, conf), Pages(cur - conf.large, cur - conf.small))
  {
    hide GetLogsAndProcess, Pages, Fetches, Saves;
    var base := LastProcessed(w, st, cfg);
    var st1 := Call(w, st).st;
    var toBlock, newToBlock := cur - conf.large, cur - conf.small;
    var n, _ := ScanRange(w, st1, Deep(cur, conf), base + 1, toBlock);
    var first := GetLogsAndProcess(w, st1, Deep(cur, conf), base + 1, toBlock).st;
    var n', _ := ScanRange(w, first, Shallow(cur, conf), toBlock, newToBlock);
    assert Pages(base + 1, toBlock)[..n] == Pages(base + 1, toBlock);
    assert Pages(toBlock, newToBlock)[..n'] == Pages(toBlock, newToBlock);
  }

  // The two single-pass programs request the pages of their one range, by the same rule, and save
  // the end of each; a range of one block gives no page, whether or not the loop is guarded.
  lemma CompletedPassFetches(w: World, st: State, cfg: Config, scan: Scan, toBlock: int)
    requires scan.Nft? || scan.Beat?
    requires OnePass(w, st, cfg, scan, toBlock).Done?
    ensures var pages := Pages(LastProcessed(w, st, cfg) + 1, toBlock);
            var out := OnePass(w, st, cfg, scan, toBlock).st;
            && Fetches(out.trace) == Fetches(st.trace) + AllOf(scan, pages)
            && Saves(out.trace) == Saves(st.trace) + Ends(pages)
            && (pages == [] <==> LastProcessed(w, st, cfg) + 1 == toBlock)
            && out.lastBlock == if pages == [] then st.lastBlock else Some(toBlock)
  {
    hide GetLogsAndProcess, FetchPages, Pages, Fetches, Saves;
    var from := LastProcessed(w, st, cfg) + 1;
    var st1 := Call(w, st).st;
    var pages := Pages(from, toBlock);
    PagePartition(from, toBlock);
    assert pages[..|pages|] == pages;
    if scan.Beat? {
      PositivePages(from, toBlock);
      var n, m := ScanProgress(w, st1, scan, pages);
    } else {
      var n, m := ScanRange(w, st1, scan, from, toBlock);
    }
  }

  predicate Requests(fetches: seq<Fetch>, scan: Scan, block: int) {
    exists k :: 0 <= k < |fetches| && fetches[k].scan == scan && fetches[k].page.Covers(block)
  }

  lemma RequestsOf(scan: Scan, from: int, to: int, block: int)
    ensures Requests(AllOf(scan, Pages(from, to)), scan, block) <==> from < to && from <= block <= to
  {
    hide Pages;
    BlockInExactlyOnePage(from, to, block);
    var pages := Pages(from, to);
    var fetches := AllOf(scan, pages);
    if InSomePage(pages, block) {
      var k :| 0 <= k < |pages| && pages[k].Covers(block);
      assert fetches[k] == Fetch(scan, pages[k]);
    }
    if Requests(fetches, scan, block) {
      var k :| 0 <= k < |fetches| && fetches[k].scan == scan && fetches[k].page.Covers(block);
      assert pages[k].Covers(block);
    }
  }

  lemma RequestsInEither(a: seq<Fetch>, b: seq<Fetch>, scan: Scan, block: int)
    ensures Requests(a + b, scan, block) <==> Requests(a, scan, block) || Requests(b, scan, block)
  {
    if Requests(a, scan, block) {
      var k :| 0 <= k < |a| && a[k].scan == scan && a[k].page.Covers(block);
      assert (a + b)[k] == a[k];
    }
    if Requests(b, scan, block) {
      var k :| 0 <= k < |b| && b[k].scan == scan && b[k].page.Covers(block);
      assert (a + b)[|a| + k] == b[k];
    }
  }

  lemma RequestsOnlyOwn(scan: Scan, pages: seq<Page>, other: Scan, block: int)
    requires scan != other
    ensures !Requests(AllOf(scan, pages), other, block)
  {
  }

  // Main result: in a run that completes, each block the run was due to look at is requested by at
  // least one pass, except exactly a lone pending block when no second pass runs; and a block is
  // requested by both passes exactly when it is `toBlock` and both passes ran.
  lemma NoGapBetweenPasses(w: World, st: State, cfg: Config, cur: int, conf: Confirmations, block: int)
    returns (requests: seq<Fetch>)
    requires TwoPasses(w, st, cfg, cur, conf).Done?
    ensures Fetches(TwoPasses(w, st, cfg, cur, conf).st.trace) == Fetches(st.trace) + requests
    ensures var base := LastProcessed(w, st, cfg);
            var toBlock, newToBlock := cur - conf.large, cur - conf.small;
            var deep := Requests(requests, Deep(cur, conf), block);
            var shallow := Requests(requests, Shallow(cur, conf), block);
            && (base < block && (block <= toBlock || block <= newToBlock) ==>
                  (deep || shallow <==> !(base + 1 == toBlock && newToBlock <= toBlock)))
            && (deep && shallow <==> block == toBlock && base + 1 < toBlock < newToBlock)
  {
    hide TwoPasses, Pages, Fetches, Requests;
    var base := LastProcessed(w, st, cfg);
    var toBlock, newToBlock := cur - conf.large, cur - conf.small;
    CompletedRunFetches(w, st, cfg, cur, conf);
    var a := AllOf(Deep(cur, conf), Pages(base + 1, toBlock));
    var b := AllOf(Shallow(cur, conf), Pages(toBlock, newToBlock));
    requests := a + b;
    RequestsInEither(a, b, Deep(cur, conf), block);
    RequestsInEither(a, b, Shallow(cur, conf), block);
    RequestsOf(Deep(cur, conf), base + 1, toBlock, block);
    RequestsOf(Shallow(cur, conf), toBlock, newToBlock, block);
    RequestsOnlyOwn(Deep(cur, conf), Pages(base + 1, toBlock), Shallow(cur, conf), block);
    RequestsOnlyOwn(Shallow(cur, conf), Pages(toBlock, newToBlock), Deep(cur, conf), block);
  }

  // ---------------------------------------------------------------- rising progress

  ghost predicate StrictlyRising(heights: seq<int>) {
    forall i, j | 0 <= i < j < |heights| :: heights[i] < heights[j]
  }

  // Every save was higher than all earlier ones, and the file holds the last of them.
  ghost predicate Risen(st: State) {
    var saves := Saves(st.trace);
    && StrictlyRising(saves)
    && (saves != [] ==> st.lastBlock == Some(saves[|saves| - 1]))
  }

  ghost predicate NotLower(a: Option<int>, b: Option<int>) {
    a.Some? ==> b.Some? && a.value <= b.value
  }

  lemma PageEndsRise(from: int, to: int, m: nat)
    requires m <= |Pages(from, to)|
    ensures StrictlyRising(Ends(Pages(from, to)[..m]))
    ensures forall k | 0 <= k < m :: from < Pages(from, to)[k].to
  {
    hide Pages;
    var pages := Pages(from, to);
    PagePartition(from, to);
    forall i, j | 0 <= i < j < m
      ensures pages[i].to < pages[j].to
    {
      PagesAreOrdered(pages, from, to, i, j);
      PageInRange(pages, from, to, j);
    }
    forall k | 0 <= k < m
      ensures from < pages[k].to
    {
      PageInRange(pages, from, to, k);
    }
  }

  lemma RisesBy(a: State, b: State, from: int, to: int, m: nat)
    requires Risen(a) && m <= |Pages(from, to)|
    requires a.lastBlock.Some? ==> a.lastBlock.value < from
    requires Saves(b.trace) == Saves(a.trace) + Ends(Pages(from, to)[..m])
    requires b.lastBlock == if m == 0 then a.lastBlock else Some(Pages(from, to)[m - 1].to)
    ensures Risen(b) && NotLower(a.lastBlock, b.lastBlock)
  {
    hide Pages, Saves;
    PageEndsRise(from, to, m);
    var ends := Ends(Pages(from, to)[..m]);
    assert forall k | 0 <= k < m :: ends[k] == Pages(from, to)[k].to;
  }

  lemma OnePassRises(w: World, st: State, cfg: Config, scan: Scan, toBlock: int)
    requires Risen(st) && w.readable(st.clock) && !scan.Shallow?
    ensures var out := OnePass(w, st, cfg, scan, toBlock); Risen(out.st) && NotLower(st.lastBlock, out.st.lastBlock)
  {
    hide GetLogsAndProcess, FetchPages, Pages, Saves, Fetches, StrictlyRising;
    var from := LastProcessed(w, st, cfg) + 1;
    var st1 := Call(w, st).st;
    if scan.Beat? {
      PositivePages(from, toBlock);
      var _, m := ScanProgress(w, st1, scan, Pages(from, toBlock));
      RisesBy(st, FetchPages(w, st1, scan, Pages(from, toBlock)).st, from, toBlock, m);
    } else {
      var _, m := ScanRange(w, st1, scan, from, toBlock);
      RisesBy(st, GetLogsAndProcess(w, st1, scan, from, toBlock).st, from, toBlock, m);
    }
  }

  lemma TwoPassesRise(w: World, st: State, cfg: Config, cur: int, conf: Confirmations)
    requires Risen(st) && w.readable(st.clock)
    ensures var out := TwoPasses(w, st, cfg, cur, conf); Risen(out.st) && NotLower(st.lastBlock, out.st.lastBlock)
  {
    hide GetLogsAndProcess, Pages, Saves, Fetches, StrictlyRising;
    var from := LastProcessed(w, st, cfg) + 1;
    var st1 := Call(w, st).st;
    var toBlock, newToBlock := cur - conf.large, cur - conf.small;
    var _, m := ScanRange(w, st1, Deep(cur, conf), from, toBlock);
    var first := GetLogsAndProcess(w, st1, Deep(cur, conf), from, toBlock).st;
    RisesBy(st, first, from, toBlock, m);
    var _, m' := ScanRange(w, first, Shallow(cur, conf), toBlock, newToBlock);
    var second := GetLogsAndProcess(w, first, Shallow(cur, conf), toBlock, newToBlock).st;
    assert Saves(second.trace) == Saves(first.trace) by {
      assert Ends(Pages(toBlock, newToBlock)[..m']) == [];
    }
  }

  lemma AttemptRises(w: World, st: State, cfg: Config)
    requires Risen(st) && forall t: nat :: w.readable(t)
    ensures var out := Attempt(w, st, cfg); Risen(out.st) && NotLower(st.lastBlock, out.st.lastBlock)
  {
    hide TwoPasses, OnePass, Saves, StrictlyRising, VotingOnly;
    var cur := w.height(st.clock);
    var st1 := Call(w, st).st;
    match cfg.kind
    case Erc20 =>
      var st2 := CheckSynced(w, st1).st;
      TwoPassesRise(w, Call(w, st2).st, cfg, cur, w.confirmations(st2.clock));
    case NonFungible =>
      var known := GetCurrentChainId(w, st1);
      if known.Done? {
        var st3 := CheckSynced(w, known.st).st;
        OnePassRises(w, st3, cfg, Nft(cur), cur - NftConfirmations(st3.chainId.value));
      }
    case HeartbeatReader =>
      OnePassRises(w, st1, cfg, Beat(cur), cur);
  }

  lemma {:induction false} AttemptsRise(w: World, st: State, cfg: Config, retries: nat)
    requires Risen(st) && retries > 0 && forall t: nat :: w.readable(t)
    ensures var out := Attempts(w, st, cfg, retries); Risen(out.st) && NotLower(st.lastBlock, out.st.lastBlock)
    decreases retries
  {
    hide Attempt, Risen, Extends;
    AttemptRises(w, st, cfg);
    if retries == 1 {
    } else {
      AttemptsRise(w, Attempt(w, st, cfg).st, cfg, retries - 1);
    }
  }

  lemma NothingSaved(st: State)
    requires st.trace == []
    ensures Risen(st)
  {
  }

  // Main result: as long as the progress file can be read, every height ever saved, over any
  // history of runs, exceeds all heights saved before it, however the chain height moves.
  lemma {:induction false} ProgressOnlyRises(w: World, st: State, cfg: Config, runs: nat)
    requires st.trace == [] && forall t: nat :: w.readable(t)
    ensures var end := History(w, st, cfg, runs); Risen(end) && NotLower(st.lastBlock, end.lastBlock)
    decreases runs
  {
    hide Attempts, Extends, Saves, StrictlyRising;
    if runs > 0 {
      ProgressOnlyRises(w, st, cfg, runs - 1);
      var before := History(w, st, cfg, runs - 1);
      AttemptsRise(w, before, cfg, Retries(cfg.kind));
      AttemptsRise(w, Call(w, before).st, cfg, Retries(cfg.kind));
    } else {
      NothingSaved(st);
    }
  }

  // The condition on the file is needed.  In a run that saves anything, the first height saved is
  // above the old one exactly when the file was read, or when the first page, then counted from the
  // configured block, happens to end above it.
  lemma FirstSaveRisesExactlyWhen(w: World, st: State, cfg: Config, cur: int, conf: Confirmations)
    requires st.lastBlock.Some? && st.lastBlock.value >= cfg.fromBlock
    requires |Saves(TwoPasses(w, st, cfg, cur, conf).st.trace)| > |Saves(st.trace)|
    ensures var saved := Saves(TwoPasses(w, st, cfg, cur, conf).st.trace)[|Saves(st.trace)|];
            var pages := Pages(cfg.fromBlock + 1, cur - conf.large);
            saved > st.lastBlock.value <==>
              w.readable(st.clock) || (pages != [] && pages[0].to > st.lastBlock.value)
  {
    hide GetLogsAndProcess, Pages, Saves, Fetches;
    var from := LastProcessed(w, st, cfg) + 1;
    var st1 := Call(w, st).st;
    var toBlock, newToBlock := cur - conf.large, cur - conf.small;
    var n, m := ScanRange(w, st1, Deep(cur, conf), from, toBlock);
    var first := GetLogsAndProcess(w, st1, Deep(cur, conf), from, toBlock).st;
    var n', m' := ScanRange(w, first, Shallow(cur, conf), toBlock, newToBlock);
    assert Ends(Pages(toBlock, newToBlock)[..0]) == [];
    PageEndsRise(from, toBlock, m);
  }

  // The same holds of the single pass of the other two programs.
  lemma FirstSaveOfPassRisesExactlyWhen(w: World, st: State, cfg: Config, scan: Scan, toBlock: int)
    requires scan.Nft? || scan.Beat?
    requires st.lastBlock.Some? && st.lastBlock.value >= cfg.fromBlock
    requires |Saves(OnePass(w, st, cfg, scan, toBlock).st.trace)| > |Saves(st.trace)|
    ensures var saved := Saves(OnePass(w, st, cfg, scan, toBlock).st.trace)[|Saves(st.trace)|];
            var pages := Pages(cfg.fromBlock + 1, toBlock);
            saved > st.lastBlock.value <==>
              w.readable(st.clock) || (pages != [] && pages[0].to > st.lastBlock.value)
  {
    hide GetLogsAndProcess, FetchPages, Pages, Saves, Fetches;
    var from := LastProcessed(w, st, cfg) + 1;
    var st1 := Call(w, st).st;
    var n, m;
    if scan.Beat? {
      PositivePages(from, toBlock);
      n, m := ScanProgress(w, st1, scan, Pages(from, toBlock));
    } else {
      n, m := ScanRange(w, st1, scan, from, toBlock);
    }
    PageEndsRise(from, toBlock, m);
  }

  // ---------------------------------------------------------------- no zero is ever saved

  ghost predicate AllAbove(heights: seq<int>, low: int) {
    forall h | h in heights :: h > low
  }

  lemma EndsAreAbove(before: seq<int>, from: int, to: int, m: nat, low: int)
    requires AllAbove(before, low) && low < from && m <= |Pages(from, to)|
    ensures AllAbove(before + Ends(Pages(from, to)[..m]), low)
  {
    hide Pages;
    PageEndsRise(from, to, m);
  }

  lemma OnePassSavesAbove(w: World, st: State, cfg: Config, scan: Scan, toBlock: int)
    requires !scan.Shallow? && AllAbove(Saves(st.trace), cfg.fromBlock)
    ensures AllAbove(Saves(OnePass(w, st, cfg, scan, toBlock).st.trace), cfg.fromBlock)
  {
    hide GetLogsAndProcess, FetchPages, Pages, Saves, Fetches, AllAbove;
    var from := LastProcessed(w, st, cfg) + 1;
    var st1 := Call(w, st).st;
    PositivePages(from, toBlock);
    var n, m := ScanProgress(w, st1, scan, Pages(from, toBlock));
    EndsAreAbove(Saves(st.trace), from, toBlock, m, cfg.fromBlock);
    n, m := ScanRange(w, st1, scan, from, toBlock);
    EndsAreAbove(Saves(st.trace), from, toBlock, m, cfg.fromBlock);
  }

  lemma TwoPassesSaveAbove(w: World, st: State, cfg: Config, cur: int, conf: Confirmations)
    requires AllAbove(Saves(st.trace), cfg.fromBlock)
    ensures AllAbove(Saves(TwoPasses(w, st, cfg, cur, conf).st.trace), cfg.fromBlock)
  {
    hide GetLogsAndProcess, Pages, Saves, Fetches, AllAbove;
    var from := LastProcessed(w, st, cfg) + 1;
    var st1 := Call(w, st).st;
    var toBlock, newToBlock := cur - conf.large, cur - conf.small;
    var n, m := ScanRange(w, st1, Deep(cur, conf), from, toBlock);
    var first := GetLogsAndProcess(w, st1, Deep(cur, conf), from, toBlock).st;
    EndsAreAbove(Saves(st.trace), from, toBlock, m, cfg.fromBlock);
    var n', m' := ScanRange(w, first, Shallow(cur, conf), toBlock, newToBlock);
    var second := GetLogsAndProcess(w, first, Shallow(cur, conf), toBlock, newToBlock).st;
    assert Saves(second.trace) == Saves(first.trace) by {
      assert Ends(Pages(toBlock, newToBlock)[..m']) == [];
    }
  }

  lemma AttemptSavesAbove(w: World, st: State, cfg: Config)
    requires AllAbove(Saves(st.trace), cfg.fromBlock)
    ensures AllAbove(Saves(Attempt(w, st, cfg).st.trace), cfg.fromBlock)
  {
    hide TwoPasses, OnePass, Saves, AllAbove, VotingOnly;
    var cur := w.height(st.clock);
    var st1 := Call(w, st).st;
    match cfg.kind
    case Erc20 =>
      var st2 := CheckSynced(w, st1).st;
      TwoPassesSaveAbove(w, Call(w, st2).st, cfg, cur, w.confirmations(st2.clock));
    case NonFungible =>
      var known := GetCurrentChainId(w, st1);
      if known.Done? {
        var st3 := CheckSynced(w, known.st).st;
        OnePassSavesAbove(w, st3, cfg, Nft(cur), cur - NftConfirmations(st3.chainId.value));
      }
    case HeartbeatReader =>
      OnePassSavesAbove(w, st1, cfg, Beat(cur), cur);
  }

  lemma {:induction false} AttemptsSaveAbove(w: World, st: State, cfg: Config, retries: nat)
    requires retries > 0 && AllAbove(Saves(st.trace), cfg.fromBlock)
    ensures AllAbove(Saves(Attempts(w, st, cfg, retries).st.trace), cfg.fromBlock)
    decreases retries
  {
    hide Attempt, Saves, AllAbove, Extends;
    AttemptSavesAbove(w, st, cfg);
    if retries == 1 {
    } else {
      AttemptsSaveAbove(w, Attempt(w, st, cfg).st, cfg, retries - 1);
    }
  }

  // Main result: whether or not the file can be read, every height ever saved, over any history of
  // any of the programs, lies above the configured block.  So none is zero, and the guard against a
  // zero, which the NFT federator lacks, never decides anything.
  lemma {:induction false} EverySaveIsAboveStart(w: World, st: State, cfg: Config, runs: nat)
    requires st.trace == []
    ensures AllAbove(Saves(History(w, st, cfg, runs).trace), cfg.fromBlock)
    decreases runs
  {
    hide Attempts, Extends;
    if runs == 0 {
    } else {
      hide Saves, AllAbove;
      EverySaveIsAboveStart(w, st, cfg, runs - 1);
      var before := History(w, st, cfg, runs - 1);
      AttemptsSaveAbove(w, before, cfg, Retries(cfg.kind));
      AttemptsSaveAbove(w, Call(w, before).st, cfg, Retries(cfg.kind));
    }
  }

  // ---------------------------------------------------------------- lag

  lemma {:induction false} EachNeverIdle(w: World, st: State, scan: Scan, logs: seq<Log>)
    requires !scan.Beat?
    ensures ProcessEach(w, st, scan, logs).Stopped? ==> ProcessEach(w, st, scan, logs).why in {Failed, Crashed}
    decreases logs
  {
    hide Extends, VotingOnly;
    if logs == [] {
    } else {
      var one := if scan.Nft? then ProcessNftLog(w, st, scan, logs[0]) else ProcessErc20Log(w, st, scan, logs[0]);
      if one.Done? {
        EachNeverIdle(w, one.st, scan, logs[1..]);
      }
    }
  }

  lemma {:induction false} PagesNeverIdle(w: World, st: State, scan: Scan, pages: seq<Page>)
    ensures FetchPages(w, st, scan, pages).Stopped? ==> FetchPages(w, st, scan, pages).why in {Failed, Crashed}
    decreases pages
  {
    hide ProcessEach, Extends, VotingOnly;
    if pages == [] || !w.fate(st.clock).Answers? {
    } else {
      var noted := Note(st.(clock := st.clock + 1), Fetched(st.clock, scan, pages[0]));
      var logs := w.logs(st.clock, pages[0].from, pages[0].to);
      if !scan.Beat? {
        EachNeverIdle(w, Call(w, noted).st, scan, logs);
      }
      var processed := ProcessLogs(w, noted, scan, logs);
      if processed.Done? {
        var saved := if scan.Shallow? then processed else SaveProgress(w, processed.st, scan, pages[0].to);
        if saved.Done? {
          PagesNeverIdle(w, saved.st, scan, pages[1..]);
        }
      }
    }
  }

  // Only the run itself finds that there is nothing to do; the pages can only fail or be cut short.
  lemma NeverIdle(w: World, st: State, scan: Scan, from: int, to: int)
    ensures GetLogsAndProcess(w, st, scan, from, to).Stopped? ==>
              GetLogsAndProcess(w, st, scan, from, to).why in {Failed, Crashed}
  {
    hide FetchPages, Pages;
    PagesNeverIdle(w, Call(w, st).st, scan, Pages(from, to));
  }

  // Main result: a completed run leaves the file at most one block behind the deep target, and
  // exactly at it whenever more than one block was pending.  So does a run with nothing to do.
  lemma LagsByAtMostOne(w: World, st: State, cfg: Config, cur: int, conf: Confirmations)
    ensures var out := TwoPasses(w, st, cfg, cur, conf);
            out.Done? || out == Stopped(out.st, Idle) ==>
              && cur - conf.large - Progress(out.st, cfg) <= 1
              && (out.Done? && LastProcessed(w, st, cfg) + 1 < cur - conf.large ==>
                    out.st.lastBlock == Some(cur - conf.large))
  {
    hide GetLogsAndProcess, Pages, Fetches, Saves;
    var base := LastProcessed(w, st, cfg);
    var st1 := Call(w, st).st;
    var toBlock, newToBlock := cur - conf.large, cur - conf.small;
    var n, m := ScanRange(w, st1, Deep(cur, conf), base + 1, toBlock);
    var first := GetLogsAndProcess(w, st1, Deep(cur, conf), base + 1, toBlock);
    var n', _ := ScanRange(w, first.st, Shallow(cur, conf), toBlock, newToBlock);
    PagePartition(base + 1, toBlock);
    var second := GetLogsAndProcess(w, first.st, Shallow(cur, conf), toBlock, newToBlock);
    NeverIdle(w, st1, Deep(cur, conf), base + 1, toBlock);
    NeverIdle(w, first.st, Shallow(cur, conf), toBlock, newToBlock);
  }
}
