/**
 What a vote is judged by.  Each vote follows the rule of its own program, takes the height, the
 confirmations and the event from its own attempt, and the limits and the state of its id from the
 calls just before it; and an id that is on file as refused is never sent again.
 */
module RelayJudgement {
  import opened Options
  import opened Network
  import opened Paging
  import opened Relay
  import opened RelaySafety

  // The calls just before a send asked about its id, and the send ended as the world has it.
  ghost predicate JustAsked(w: World, e: Event)
    requires e.Sent?
  {
    var b := e.ballot;
    && b.tx == w.txId(b.log)
    && e.at >= 3 && b.processedAt == e.at - 3 && b.votedAt == e.at - 2
    && !w.processed(e.at - 3, b.tx) && !w.voted(e.at - 2, b.tx)
    && e.delivery == w.delivery(e.at, b.tx)
  }

  // An ERC20 vote: the given confirmations, and the limits asked for just before, not before `since`.
  ghost predicate JudgedByTier(w: World, since: nat, conf: Confirmations, e: Event)
    requires e.Sent?
  {
    var terms := e.ballot.terms;
    && terms.Tiered? && terms.conf == conf
    && since + 5 <= e.at && LimitsReportedAt(w, e.at - 5, e.at - 4, e.ballot.log, terms.limits)
  }

  // The rule a scan that set out in state `a` judges its votes by.
  ghost predicate FollowsRule(w: World, a: State, scan: Scan, e: Event)
    requires e.Sent?
  {
    match scan
    case Deep(_, conf) => JudgedByTier(w, a.clock, conf, e)
    case Shallow(_, conf) => JudgedByTier(w, a.clock, conf, e)
    case Nft(_) => a.chainId.Some? && e.ballot.terms == Flat(NftConfirmations(a.chainId.value))
    case Beat(_) => false
  }

  ghost predicate FollowsScan(w: World, a: State, scan: Scan, e: Event)
    requires e.Sent?
  {
    && JustAsked(w, e)
    && FollowsRule(w, a, scan, e)
    && e.ballot.cur == scan.cur
    && e.ballot.tx !in a.reverted
    && a.clock + 3 <= e.at
  }

  // The entry is the request of a page that starts at `low` or above, made at `since` or later in the
  // pass that sent the vote; the event came with it, and the next call found the federator to be a
  // member.
  ghost predicate Brings(w: World, f: Event, since: nat, low: int, e: Event)
    requires e.Sent?
  {
    && f.Fetched? && f.scan.cur == e.ballot.cur
    && since <= f.at && f.at + 1 < e.at
    && low <= f.page.from && e.ballot.log in w.logs(f.at, f.page.from, f.page.to)
    && w.member(f.at + 1)
  }

  // The event of the vote came with a page that was requested between `a` and `b`.
  ghost predicate FromPage(w: World, a: State, b: State, low: int, e: Event)
    requires e.Sent?
  {
    exists k :: |a.trace| <= k < |b.trace| && Brings(w, b.trace[k], a.clock, low, e)
  }

  lemma FromPageWithin(w: World, a': State, a: State, b: State, b': State, low: int, e: Event)
    requires e.Sent? && FromPage(w, a, b, low, e)
    requires a'.clock <= a.clock && a'.trace <= a.trace && b.trace <= b'.trace
    ensures FromPage(w, a', b', low, e)
  {
    var k :| |a.trace| <= k < |b.trace| && Brings(w, b.trace[k], a.clock, low, e);
    assert b'.trace[k] == b.trace[k];
  }

  // Every vote sent between `a` and `b` is for one of the events and follows the scan.
  ghost predicate EventVotes(w: World, a: State, b: State, scan: Scan, logs: seq<Log>) {
    && a.trace <= b.trace
    && forall i | |a.trace| <= i < |b.trace| && b.trace[i].Sent? ::
         FollowsScan(w, a, scan, b.trace[i]) && b.trace[i].ballot.log in logs
  }

  ghost predicate PageVotes(w: World, a: State, b: State, scan: Scan, low: int) {
    && a.trace <= b.trace
    && forall i | |a.trace| <= i < |b.trace| && b.trace[i].Sent? ::
         FollowsScan(w, a, scan, b.trace[i]) && FromPage(w, a, b, low, b.trace[i])
  }

  lemma FollowsEarlier(w: World, a: State, b: State, scan: Scan, e: Event)
    requires e.Sent? && Extends(a, b) && FollowsScan(w, b, scan, e) && (scan.Nft? ==> a.chainId.Some?)
    ensures FollowsScan(w, a, scan, e)
  {
  }

  lemma EventVotesAdd(w: World, a: State, b: State, c: State, scan: Scan, log: Log, logs: seq<Log>)
    requires Extends(a, b) && (scan.Nft? ==> a.chainId.Some?)
    requires EventVotes(w, a, b, scan, [log]) && EventVotes(w, b, c, scan, logs)
    ensures EventVotes(w, a, c, scan, [log] + logs)
  {
    hide FollowsScan;
    forall i | |a.trace| <= i < |c.trace| && c.trace[i].Sent?
      ensures FollowsScan(w, a, scan, c.trace[i]) && c.trace[i].ballot.log in [log] + logs
    {
      if i < |b.trace| {
        assert c.trace[i] == b.trace[i];
      } else {
        FollowsEarlier(w, a, b, scan, c.trace[i]);
      }
    }
  }

  lemma PageVotesAdd(w: World, a: State, b: State, c: State, scan: Scan, low: int)
    requires Extends(a, b) && (scan.Nft? ==> a.chainId.Some?)
    requires PageVotes(w, a, b, scan, low) && PageVotes(w, b, c, scan, low)
    ensures PageVotes(w, a, c, scan, low)
  {
    hide FollowsScan, FromPage;
    forall i | |a.trace| <= i < |c.trace| && c.trace[i].Sent?
      ensures FollowsScan(w, a, scan, c.trace[i]) && FromPage(w, a, c, low, c.trace[i])
    {
      if i < |b.trace| {
        assert c.trace[i] == b.trace[i];
        FromPageWithin(w, a, a, b, c, low, c.trace[i]);
      } else {
        FollowsEarlier(w, a, b, scan, c.trace[i]);
        FromPageWithin(w, a, b, c, c, low, c.trace[i]);
      }
    }
  }

  lemma NothingFollows(w: World, a: State, b: State, scan: Scan, low: int)
    requires b.trace == a.trace
    ensures PageVotes(w, a, b, scan, low)
  {
  }

  // ---------------------------------------------------------------- one event, one page

  lemma CastFollows(w: World, st: State, cur: int, terms: Terms, log: Log, i: nat)
    requires |st.trace| <= i < |CastVote(w, st, cur, terms, log).st.trace|
    requires CastVote(w, st, cur, terms, log).st.trace[i].Sent?
    ensures var e := CastVote(w, st, cur, terms, log).st.trace[i];
            && JustAsked(w, e) && e.at == st.clock + 3
            && e.ballot.log == log && e.ballot.cur == cur && e.ballot.terms == terms && e.ballot.tx !in st.reverted
  {
    hide VotingOnly;
  }

  lemma OneFollows(w: World, st: State, scan: Scan, log: Log)
    requires !scan.Beat? && (scan.Nft? ==> st.chainId.Some?)
    ensures var out := if scan.Nft? then ProcessNftLog(w, st, scan, log) else ProcessErc20Log(w, st, scan, log);
            EventVotes(w, st, out.st, scan, [log])
  {
    hide CastVote, VotingOnly, JustAsked;
    var out := if scan.Nft? then ProcessNftLog(w, st, scan, log) else ProcessErc20Log(w, st, scan, log);
    var st2 := Call(w, Call(w, st).st).st;
    var limits := w.limits(st.clock + 1, LimitsToken(log, w.sideToken(st.clock, log)));
    forall i | |st.trace| <= i < |out.st.trace| && out.st.trace[i].Sent?
      ensures FollowsScan(w, st, scan, out.st.trace[i]) && out.st.trace[i].ballot.log == log
    {
      if scan.Nft? {
        CastFollows(w, st, scan.cur, Flat(NftConfirmations(st.chainId.value)), log, i);
      } else {
        CastFollows(w, st2, scan.cur, Tiered(scan.conf, limits), log, i);
      }
    }
  }

  lemma {:induction false} EachFollows(w: World, st: State, scan: Scan, logs: seq<Log>)
    requires !scan.Beat? && (scan.Nft? ==> st.chainId.Some?)
    ensures EventVotes(w, st, ProcessEach(w, st, scan, logs).st, scan, logs)
    decreases logs
  {
    hide VotingOnly, FollowsScan, ProcessNftLog, ProcessErc20Log;
    if logs == [] {
    } else {
      var one := if scan.Nft? then ProcessNftLog(w, st, scan, logs[0]) else ProcessErc20Log(w, st, scan, logs[0]);
      OneFollows(w, st, scan, logs[0]);
      if one.Done? {
        EachFollows(w, one.st, scan, logs[1..]);
        EventVotesAdd(w, st, one.st, ProcessEach(w, one.st, scan, logs[1..]).st, scan, logs[0], logs[1..]);
        assert [logs[0]] + logs[1..] == logs;
      }
    }
  }

  lemma SentLater(w: World, a: State, scan: Scan, e: Event)
    requires e.Sent? && FollowsScan(w, a, scan, e)
    ensures a.clock + 3 <= e.at && e.ballot.cur == scan.cur
  {
  }

  lemma PageFollows(w: World, st: State, scan: Scan, page: Page, low: int)
    requires low <= page.from && (scan.Nft? ==> st.chainId.Some?)
    ensures PageVotes(w, st, FetchPage(w, st, scan, page).st, scan, low)
  {
    hide VotingOnly, FollowsScan, ProcessEach;
    var fetched := Fetched(st.clock, scan, page);
    var noted := Note(st.(clock := st.clock + 1), fetched);
    var logs := w.logs(st.clock, page.from, page.to);
    var asked := Call(w, noted).st;
    var out := FetchPage(w, st, scan, page).st;
    if !scan.Beat? {
      EachFollows(w, asked, scan, logs);
    }
    forall i | |st.trace| <= i < |out.trace| && out.trace[i].Sent?
      ensures FollowsScan(w, st, scan, out.trace[i]) && FromPage(w, st, out, low, out.trace[i])
    {
      var e := out.trace[i];
      assert FollowsScan(w, asked, scan, e) && e.ballot.log in logs;
      FollowsEarlier(w, st, asked, scan, e);
      SentLater(w, asked, scan, e);
      assert out.trace[|st.trace|] == fetched && Brings(w, fetched, st.clock, low, e);
    }
  }

  lemma {:induction false} PagesFollow(w: World, st: State, scan: Scan, pages: seq<Page>, low: int)
    requires (forall page | page in pages :: low <= page.from) && (scan.Nft? ==> st.chainId.Some?)
    ensures PageVotes(w, st, FetchPages(w, st, scan, pages).st, scan, low)
    decreases pages
  {
    hide FetchPage, FollowsScan, FromPage;
    if pages == [] {
    } else {
      var one := FetchPage(w, st, scan, pages[0]);
      PageFollows(w, st, scan, pages[0], low);
      if one.Done? {
        PagesFollow(w, one.st, scan, pages[1..], low);
        PageVotesAdd(w, st, one.st, FetchPages(w, one.st, scan, pages[1..]).st, scan, low);
      }
    }
  }

  lemma ScanFollows(w: World, st: State, scan: Scan, from: int, to: int, low: int)
    requires low <= from && (scan.Nft? ==> st.chainId.Some?)
    ensures PageVotes(w, st, GetLogsAndProcess(w, st, scan, from, to).st, scan, low)
    ensures PageVotes(w, st, FetchPages(w, st, scan, Pages(from, to)).st, scan, low)
  {
    hide FetchPages, Pages, PageVotes;
    PagesEndInRange(from, to);
    PagesFollow(w, st, scan, Pages(from, to), low);
    var st1 := Call(w, st).st;
    var out := GetLogsAndProcess(w, st, scan, from, to).st;
    PagesFollow(w, st1, scan, Pages(from, to), low);
    NothingFollows(w, st, st1, scan, low);
    if from < to && w.fate(st.clock).Answers? {
      PageVotesAdd(w, st, st1, out, scan, low);
    } else {
      NothingFollows(w, st, out, scan, low);
    }
  }

  // ---------------------------------------------------------------- an attempt

  // The lowest block an attempt of an ERC20 run that read these values, or of another, looks at.
  function LowestBlock(cfg: Config, cur: int, conf: Confirmations): int {
    var toBlock := cur - conf.large;
    if cfg.kind == Erc20 && toBlock <= cfg.fromBlock then toBlock else cfg.fromBlock + 1
  }

  // The vote belongs to the attempt that went from state `a` to state `b`: it is judged by the rule of
  // the program that runs, the height is the one the attempt's first call read, the confirmations and
  // the chain id are the ones it then asked for, the event came with a page it requested, and limits
  // and the state of the id were asked for just before the send.
  ghost predicate OfAttempt(w: World, cfg: Config, a: State, b: State, e: Event)
    requires e.Sent?
  {
    var conf := w.confirmations(a.clock + 3);
    && JustAsked(w, e)
    && e.ballot.cur == w.height(a.clock)
    && e.ballot.tx !in a.reverted
    && a.clock + 3 < e.at
    && FromPage(w, a, b, LowestBlock(cfg, w.height(a.clock), conf), e)
    && match cfg.kind
       case Erc20 => JudgedByTier(w, a.clock + 4, conf, e)
       case NonFungible => e.ballot.terms == Flat(NftConfirmations(a.chainId.GetOr(w.netId(a.clock + 1))))
       case HeartbeatReader => false
  }

  lemma AskedInAttempt(w: World, cfg: Config, a: State, b: State, e: Event)
    requires e.Sent? && OfAttempt(w, cfg, a, b, e)
    ensures JustAsked(w, e) && a.clock + 3 < e.at && e.ballot.tx !in a.reverted
  {
  }

  // Every vote sent between `a` and `b` follows one of the two passes of an ERC20 attempt.
  ghost predicate PassVotes(w: World, a: State, b: State, cur: int, conf: Confirmations, low: int) {
    && a.trace <= b.trace
    && forall i | |a.trace| <= i < |b.trace| && b.trace[i].Sent? ::
         && FromPage(w, a, b, low, b.trace[i])
         && (FollowsScan(w, a, Deep(cur, conf), b.trace[i]) || FollowsScan(w, a, Shallow(cur, conf), b.trace[i]))
  }

  lemma PassesFollow(
    w: World, a: State, b: State, c: State, d: State, cur: int, conf: Confirmations, low: int)
    requires a.trace == b.trace && Extends(a, b) && Extends(b, c) && Extends(c, d)
    requires PageVotes(w, b, c, Deep(cur, conf), low) && PageVotes(w, c, d, Shallow(cur, conf), low)
    ensures PassVotes(w, a, d, cur, conf, low)
  {
    hide FollowsScan, FromPage;
    forall i | |a.trace| <= i < |d.trace| && d.trace[i].Sent?
      ensures FromPage(w, a, d, low, d.trace[i])
      ensures FollowsScan(w, a, Deep(cur, conf), d.trace[i]) || FollowsScan(w, a, Shallow(cur, conf), d.trace[i])
    {
      var e := d.trace[i];
      if i < |c.trace| {
        assert e == c.trace[i];
        FollowsEarlier(w, a, b, Deep(cur, conf), e);
        FromPageWithin(w, a, b, c, d, low, e);
      } else {
        FollowsEarlier(w, a, c, Shallow(cur, conf), e);
        FromPageWithin(w, a, c, d, d, low, e);
      }
    }
  }

  lemma TwoPassesFollow(w: World, st: State, cfg: Config, cur: int, conf: Confirmations)
    requires cfg.kind == Erc20
    ensures PassVotes(w, st, TwoPasses(w, st, cfg, cur, conf).st, cur, conf, LowestBlock(cfg, cur, conf))
  {
    hide GetLogsAndProcess, FetchPages, Pages, PageVotes, FollowsScan, FromPage;
    var low := LowestBlock(cfg, cur, conf);
    var from, toBlock, newToBlock := LastProcessed(w, st, cfg) + 1, cur - conf.large, cur - conf.small;
    var st1 := Call(w, st).st;
    var first := GetLogsAndProcess(w, st1, Deep(cur, conf), from, toBlock).st;
    var second := GetLogsAndProcess(w, first, Shallow(cur, conf), toBlock, newToBlock).st;
    ScanFollows(w, st1, Deep(cur, conf), from, toBlock, low);
    ScanFollows(w, first, Shallow(cur, conf), toBlock, newToBlock, low);
    NothingFollows(w, first, first, Shallow(cur, conf), low);
    PassesFollow(w, st, st1, first, second, cur, conf, low);
    PassesFollow(w, st, st1, first, first, cur, conf, low);
  }

  lemma OnePassFollows(w: World, st: State, cfg: Config, scan: Scan, toBlock: int)
    requires scan.Nft? ==> st.chainId.Some?
    ensures PageVotes(w, st, OnePass(w, st, cfg, scan, toBlock).st, scan, cfg.fromBlock + 1)
  {
    hide GetLogsAndProcess, FetchPages, Pages, PageVotes;
    var low, from := cfg.fromBlock + 1, LastProcessed(w, st, cfg) + 1;
    var st1 := Call(w, st).st;
    var out := OnePass(w, st, cfg, scan, toBlock).st;
    NothingFollows(w, st, st1, scan, low);
    ScanFollows(w, st1, scan, from, toBlock, low);
    if out.trace == st.trace {
      NothingFollows(w, st, out, scan, low);
    } else {
      PageVotesAdd(w, st, st1, out, scan, low);
    }
  }

  lemma NothingFromHeartbeats(w: World, a: State, b: State, cur: int, low: int)
    requires PageVotes(w, a, b, Beat(cur), low)
    ensures forall i | |a.trace| <= i < |b.trace| :: !b.trace[i].Sent?
  {
  }

  lemma Erc20VoteIsOwn(w: World, st: State, st3: State, end: State, cfg: Config, e: Event)
    requires cfg.kind == Erc20 && e.Sent? && st3 == st.(clock := st.clock + 4)
    requires var cur, conf := w.height(st.clock), w.confirmations(st.clock + 3);
             && FromPage(w, st3, end, LowestBlock(cfg, cur, conf), e)
             && (FollowsScan(w, st3, Deep(cur, conf), e) || FollowsScan(w, st3, Shallow(cur, conf), e))
    ensures OfAttempt(w, cfg, st, end, e)
  {
    hide LimitsReportedAt, FromPage, JustAsked;
    FromPageWithin(w, st, st3, end, end, LowestBlock(cfg, w.height(st.clock), w.confirmations(st.clock + 3)), e);
  }

  lemma NftVoteIsOwn(w: World, st: State, st3: State, end: State, cfg: Config, e: Event)
    requires cfg.kind == NonFungible && e.Sent? && st3.clock >= st.clock + 3
    requires st3.reverted == st.reverted && st3.trace == st.trace
    requires st3.chainId == Some(st.chainId.GetOr(w.netId(st.clock + 1)))
    requires FromPage(w, st3, end, cfg.fromBlock + 1, e) && FollowsScan(w, st3, Nft(w.height(st.clock)), e)
    ensures OfAttempt(w, cfg, st, end, e)
  {
    hide FromPage, JustAsked;
    FromPageWithin(w, st, st3, end, end, cfg.fromBlock + 1, e);
  }

  // Main result: one attempt of any program judges each of its votes by its own readings.
  lemma AttemptVotesAreItsOwn(w: World, st: State, cfg: Config, i: nat)
    requires |st.trace| <= i < |Attempt(w, st, cfg).st.trace| && Attempt(w, st, cfg).st.trace[i].Sent?
    ensures OfAttempt(w, cfg, st, Attempt(w, st, cfg).st, Attempt(w, st, cfg).st.trace[i])
  {
    hide TwoPasses, OnePass, OfAttempt, FollowsScan, FromPage;
    var out := Attempt(w, st, cfg).st;
    var e := out.trace[i];
    var cur := w.height(st.clock);
    var st1 := Call(w, st).st;
    match cfg.kind
    case Erc20 =>
      var st3 := Call(w, CheckSynced(w, st1).st).st;
      TwoPassesFollow(w, st3, cfg, cur, w.confirmations(st.clock + 3));
      Erc20VoteIsOwn(w, st, st3, out, cfg, e);
    case NonFungible =>
      var known := GetCurrentChainId(w, st1).st;
      var st3 := CheckSynced(w, known).st;
      OnePassFollows(w, st3, cfg, Nft(cur), cur - NftConfirmations(st3.chainId.value));
      NftVoteIsOwn(w, st, st3, out, cfg, e);
    case HeartbeatReader =>
      OnePassFollows(w, st1, cfg, Beat(cur), cur);
      NothingFromHeartbeats(w, st1, OnePass(w, st1, cfg, Beat(cur), cur).st, cur, cfg.fromBlock + 1);
  }

  // ---------------------------------------------------------------- histories

  // What not even a restart takes back.
  predicate Later(a: State, b: State) {
    a.clock <= b.clock && a.trace <= b.trace && a.reverted <= b.reverted
  }

  // The attempt that sets out in state `st`, made between `a` and `b`, sends the vote, and the vote
  // belongs to it.
  ghost predicate SentBy(w: World, cfg: Config, a: State, st: State, b: State, e: Event)
    requires e.Sent?
  {
    var end := Attempt(w, st, cfg).st;
    && OfAttempt(w, cfg, st, end, e)
    && Later(a, st) && Later(end, b)
    && e in end.trace[|st.trace|..]
  }

  ghost predicate OwnAttempt(w: World, cfg: Config, a: State, b: State, e: Event)
    requires e.Sent?
  {
    exists st: State :: SentBy(w, cfg, a, st, b, e)
  }

  ghost predicate VotesAreOwn(w: World, cfg: Config, a: State, b: State) {
    && Later(a, b)
    && forall i | |a.trace| <= i < |b.trace| && b.trace[i].Sent? :: OwnAttempt(w, cfg, a, b, b.trace[i])
  }

  lemma SentByWithin(w: World, cfg: Config, a: State, b: State, a': State, b': State, st: State, e: Event)
    requires e.Sent? && SentBy(w, cfg, a, st, b, e) && Later(a', a) && Later(b, b')
    ensures SentBy(w, cfg, a', st, b', e)
  {
    hide Attempt, OfAttempt;
  }

  lemma OwnWithin(w: World, cfg: Config, a: State, b: State, a': State, b': State, e: Event)
    requires e.Sent? && OwnAttempt(w, cfg, a, b, e) && Later(a', a) && Later(b, b')
    ensures OwnAttempt(w, cfg, a', b', e)
  {
    hide SentBy;
    var st: State :| SentBy(w, cfg, a, st, b, e);
    SentByWithin(w, cfg, a, b, a', b', st, e);
  }

  lemma VotesAreOwnAdd(w: World, cfg: Config, a: State, b: State, c: State)
    requires VotesAreOwn(w, cfg, a, b) && VotesAreOwn(w, cfg, b, c)
    ensures VotesAreOwn(w, cfg, a, c)
  {
    hide OwnAttempt;
    forall i | |a.trace| <= i < |c.trace| && c.trace[i].Sent?
      ensures OwnAttempt(w, cfg, a, c, c.trace[i])
    {
      if i < |b.trace| {
        OwnWithin(w, cfg, a, b, a, c, b.trace[i]);
      } else {
        OwnWithin(w, cfg, b, c, a, c, c.trace[i]);
      }
    }
  }

  lemma AttemptOwns(w: World, cfg: Config, st: State)
    ensures VotesAreOwn(w, cfg, st, Attempt(w, st, cfg).st)
  {
    hide Attempt, OfAttempt;
    var out := Attempt(w, st, cfg).st;
    forall i | |st.trace| <= i < |out.trace| && out.trace[i].Sent?
      ensures OwnAttempt(w, cfg, st, out, out.trace[i])
    {
      AttemptVotesAreItsOwn(w, st, cfg, i);
      assert out.trace[i] == out.trace[|st.trace|..][i - |st.trace|];
      assert SentBy(w, cfg, st, st, out, out.trace[i]);
    }
  }

  lemma {:induction false} AttemptsOwn(w: World, cfg: Config, st: State, retries: nat)
    requires retries > 0
    ensures VotesAreOwn(w, cfg, st, Attempts(w, st, cfg, retries).st)
    decreases retries
  {
    hide Attempt, OwnAttempt;
    AttemptOwns(w, cfg, st);
    if retries == 1 {
    } else {
      var next := Attempt(w, st, cfg).st;
      AttemptsOwn(w, cfg, next, retries - 1);
      VotesAreOwnAdd(w, cfg, st, next, Attempts(w, next, cfg, retries - 1).st);
    }
  }

  lemma RunOwns(w: World, cfg: Config, st: State)
    ensures VotesAreOwn(w, cfg, st, Run(w, st, cfg).st)
    ensures VotesAreOwn(w, cfg, st, Restart(Run(w, st, cfg)))
  {
    hide Attempts, OwnAttempt;
    var st1 := Call(w, st).st;
    var out := Run(w, st, cfg);
    AttemptsOwn(w, cfg, st, Retries(cfg.kind));
    AttemptsOwn(w, cfg, st1, Retries(cfg.kind));
    assert VotesAreOwn(w, cfg, st, st1);
    VotesAreOwnAdd(w, cfg, st, st1, Attempts(w, st1, cfg, Retries(cfg.kind)).st);
    assert VotesAreOwn(w, cfg, out.st, Restart(out));
    VotesAreOwnAdd(w, cfg, st, out.st, Restart(out));
  }

  // Main result: over any history each vote is judged by the rule of the program that runs, on what
  // its own attempt read.  No assumption on the world is needed.
  lemma {:induction false} VotesAreJudgedByTheirAttempt(w: World, st: State, cfg: Config, runs: nat)
    ensures VotesAreOwn(w, cfg, st, History(w, st, cfg, runs))
    decreases runs
  {
    hide Run, OwnAttempt;
    if runs == 0 {
    } else {
      var before := History(w, st, cfg, runs - 1);
      VotesAreJudgedByTheirAttempt(w, st, cfg, runs - 1);
      RunOwns(w, cfg, before);
      VotesAreOwnAdd(w, cfg, st, before, History(w, st, cfg, runs));
    }
  }

  // The form in which it is used: an attempt that set out later than `st` sent the vote.
  lemma SentInSomeAttempt(w: World, st: State, cfg: Config, runs: nat, i: nat) returns (a: State, b: State)
    requires |st.trace| <= i < |History(w, st, cfg, runs).trace| && History(w, st, cfg, runs).trace[i].Sent?
    ensures Later(st, a) && b == Attempt(w, a, cfg).st && Later(b, History(w, st, cfg, runs))
    ensures OfAttempt(w, cfg, a, b, History(w, st, cfg, runs).trace[i])
  {
    hide History, Attempt, OfAttempt;
    VotesAreJudgedByTheirAttempt(w, st, cfg, runs);
    var end := History(w, st, cfg, runs);
    a :| SentBy(w, cfg, st, a, end, end.trace[i]);
    b := Attempt(w, a, cfg).st;
  }
}
