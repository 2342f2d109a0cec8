/**
 Runs as a whole: when attempts are repeated, when a run does nothing, and what the NFT federator
 guarantees with its single pass.
 */
module RelayRuns {
  import opened Network
  import opened Paging
  import opened Relay
  import opened RelaySafety
  import opened RelayJudgement
  import opened RelayCoverage
  import opened RelayProgress
  import opened RelayRepeat

  // The state in which the k-th attempt of a run sets out, if all earlier ones failed.
  function BeforeAttempt(w: World, st: State, cfg: Config, k: nat): State {
    if k == 0 then st else Attempt(w, BeforeAttempt(w, st, cfg, k - 1), cfg).st
  }

  predicate Throws(w: World, st: State, cfg: Config) {
    var out := Attempt(w, st, cfg);
    out.Stopped? && out.why.Failed?
  }

  lemma {:induction false} FirstAttemptDropped(w: World, st: State, cfg: Config, k: nat)
    ensures BeforeAttempt(w, Attempt(w, st, cfg).st, cfg, k) == BeforeAttempt(w, st, cfg, k + 1)
    decreases k
  {
    hide Attempt;
    if k == 0 {
    } else {
      FirstAttemptDropped(w, st, cfg, k - 1);
    }
  }

  // An attempt is repeated, from where the failed one left the files, exactly after an exception;
  // the run ends with the first attempt that does not throw, and the process exits when as many
  // attempts as allowed have thrown.
  lemma {:induction false} RunEndsWithFirstGoodAttempt(w: World, st: State, cfg: Config, retries: nat)
    returns (k: nat)
    requires retries > 0
    ensures k < retries && forall i | 0 <= i < k :: Throws(w, BeforeAttempt(w, st, cfg, i), cfg)
    ensures var last := Attempt(w, BeforeAttempt(w, st, cfg, k), cfg);
            if Throws(w, BeforeAttempt(w, st, cfg, k), cfg)
            then k == retries - 1 && Attempts(w, st, cfg, retries) == Stopped(last.st, Exited)
            else Attempts(w, st, cfg, retries) == last
    decreases retries
  {
    hide Attempt, Extends;
    k := 0;
    if Throws(w, st, cfg) && retries > 1 {
      var next := Attempt(w, st, cfg).st;
      var k' := RunEndsWithFirstGoodAttempt(w, next, cfg, retries - 1);
      k := k' + 1;
      forall i | 0 <= i <= k'
        ensures BeforeAttempt(w, next, cfg, i) == BeforeAttempt(w, st, cfg, i + 1)
      {
        FirstAttemptDropped(w, st, cfg, i);
      }
      forall i | 0 <= i < k
        ensures Throws(w, BeforeAttempt(w, st, cfg, i), cfg)
      {
        if i > 0 {
          assert BeforeAttempt(w, next, cfg, i - 1) == BeforeAttempt(w, st, cfg, i);
        }
      }
    }
  }

  // An attempt asks both nodes whether they are syncing once it knows the height, and, for NFTs, the
  // chain; it is told that one of them is.
  predicate FindsSyncing(w: World, st: State, cfg: Config) {
    var asked := st.clock + if cfg.kind == Erc20 || st.chainId.Some? then 1 else 2;
    cfg.kind != HeartbeatReader && (w.mainSyncing(asked) || w.sideSyncing(asked + 1))
  }

  lemma SyncingAttemptDoesNothing(w: World, st: State, cfg: Config)
    requires FindsSyncing(w, st, cfg)
    ensures NothingDone(st, Attempt(w, st, cfg).st) && !Attempt(w, st, cfg).Done?
  {
    hide TwoPasses, OnePass, VotingOnly;
  }

  // An attempt that finds a node syncing changes nothing and votes for nothing; nor does a run of
  // such attempts.
  lemma {:induction false} SyncingRunsDoNothing(w: World, st: State, cfg: Config, retries: nat)
    requires retries > 0 && forall k: nat | k < retries :: FindsSyncing(w, BeforeAttempt(w, st, cfg, k), cfg)
    ensures NothingDone(st, Attempts(w, st, cfg, retries).st)
    decreases retries
  {
    hide Attempt, FindsSyncing, Extends;
    assert BeforeAttempt(w, st, cfg, 0) == st;
    SyncingAttemptDoesNothing(w, st, cfg);
    if retries == 1 {
    } else {
      var next := Attempt(w, st, cfg).st;
      forall k: nat | k < retries - 1
        ensures FindsSyncing(w, BeforeAttempt(w, next, cfg, k), cfg)
      {
        FirstAttemptDropped(w, st, cfg, k);
      }
      SyncingRunsDoNothing(w, next, cfg, retries - 1);
    }
  }

  // ---------------------------------------------------------------- a second run of one pass

  // From tick `t` on the origin chain keeps its height, and the progress file can be read.
  ghost predicate Steady(w: World, t: nat) {
    forall t': nat | t <= t' :: w.height(t') == w.height(t) && w.readable(t')
  }

  // The last block a program with one pass looks at when the chain has this height.
  function Target(st: State, cfg: Config, height: int): int
    requires cfg.kind == NonFungible ==> st.chainId.Some?
  {
    if cfg.kind == NonFungible then height - NftConfirmations(st.chainId.value) else height
  }

  // At most one block is pending, which gives no page.
  predicate CaughtUp(st: State, cfg: Config, height: int) {
    && (cfg.kind == NonFungible ==> st.chainId.Some?)
    && Target(st, cfg, height) <= Progress(st, cfg) + 1
  }

  lemma CompletedPassCatchesUp(w: World, st: State, cfg: Config, scan: Scan, toBlock: int)
    requires (scan.Nft? || scan.Beat?) && w.readable(st.clock) && OnePass(w, st, cfg, scan, toBlock).Done?
    ensures toBlock <= Progress(OnePass(w, st, cfg, scan, toBlock).st, cfg) + 1
  {
    hide Pages, FetchPages, GetLogsAndProcess, Fetches, Saves;
    CompletedPassFetches(w, st, cfg, scan, toBlock);
  }

  lemma CaughtUpPassDoesNothing(w: World, st: State, cfg: Config, scan: Scan, toBlock: int)
    requires (scan.Nft? || scan.Beat?) && w.readable(st.clock) && toBlock <= Progress(st, cfg) + 1
    ensures NothingDone(st, OnePass(w, st, cfg, scan, toBlock).st)
  {
    PagePartition(toBlock, toBlock);
  }

  lemma AttemptCatchesUp(w: World, t: nat, st: State, cfg: Config)
    requires cfg.kind != Erc20 && Steady(w, t) && t <= st.clock && Attempt(w, st, cfg).Done?
    ensures CaughtUp(Attempt(w, st, cfg).st, cfg, w.height(t))
  {
    hide OnePass;
    var cur := w.height(st.clock);
    var st1 := Call(w, st).st;
    if cfg.kind == NonFungible {
      var st3 := CheckSynced(w, GetCurrentChainId(w, st1).st).st;
      CompletedPassCatchesUp(w, st3, cfg, Nft(cur), cur - NftConfirmations(st3.chainId.value));
    } else {
      CompletedPassCatchesUp(w, st1, cfg, Beat(cur), cur);
    }
  }

  lemma CaughtUpAttemptDoesNothing(w: World, t: nat, st: State, cfg: Config)
    requires cfg.kind != Erc20 && Steady(w, t) && t <= st.clock && CaughtUp(st, cfg, w.height(t))
    ensures NothingDone(st, Attempt(w, st, cfg).st) && CaughtUp(Attempt(w, st, cfg).st, cfg, w.height(t))
  {
    hide OnePass;
    var cur := w.height(st.clock);
    var st1 := Call(w, st).st;
    if cfg.kind == NonFungible {
      var st3 := CheckSynced(w, st1).st;
      CaughtUpPassDoesNothing(w, st3, cfg, Nft(cur), cur - NftConfirmations(st3.chainId.value));
    } else {
      CaughtUpPassDoesNothing(w, st1, cfg, Beat(cur), cur);
    }
  }

  lemma {:induction false} AttemptsCatchUp(w: World, t: nat, st: State, cfg: Config, retries: nat)
    requires cfg.kind != Erc20 && Steady(w, t) && t <= st.clock
    requires retries > 0 && Attempts(w, st, cfg, retries).Done?
    ensures CaughtUp(Attempts(w, st, cfg, retries).st, cfg, w.height(t))
    decreases retries
  {
    hide Attempt, CaughtUp, Steady;
    if Throws(w, st, cfg) {
      AttemptsCatchUp(w, t, Attempt(w, st, cfg).st, cfg, retries - 1);
    } else {
      AttemptCatchesUp(w, t, st, cfg);
    }
  }

  lemma {:induction false} CaughtUpAttemptsDoNothing(w: World, t: nat, st: State, cfg: Config, retries: nat)
    requires cfg.kind != Erc20 && Steady(w, t) && t <= st.clock
    requires retries > 0 && CaughtUp(st, cfg, w.height(t))
    ensures NothingDone(st, Attempts(w, st, cfg, retries).st)
    decreases retries
  {
    hide Attempt, CaughtUp, Steady;
    CaughtUpAttemptDoesNothing(w, t, st, cfg);
    if retries == 1 {
    } else {
      CaughtUpAttemptsDoNothing(w, t, Attempt(w, st, cfg).st, cfg, retries - 1);
    }
  }

  // Main result: after a completed run of the NFT federator or the heartbeat reader, another run at
  // the same height sends no vote and leaves both files as they are, even if it is cut short.
  lemma SecondRunOfOnePassDoesNothing(w: World, st: State, cfg: Config)
    requires cfg.kind != Erc20 && Steady(w, st.clock) && Run(w, st, cfg).Done?
    ensures NothingDone(Run(w, st, cfg).st, Run(w, Run(w, st, cfg).st, cfg).st)
  {
    hide Attempts, Steady;
    var first := if cfg.kind == HeartbeatReader then Call(w, st).st else st;
    var one := Run(w, st, cfg).st;
    var again := if cfg.kind == HeartbeatReader then Call(w, one).st else one;
    AttemptsCatchUp(w, st.clock, first, cfg, Retries(cfg.kind));
    CaughtUpAttemptsDoNothing(w, st.clock, again, cfg, Retries(cfg.kind));
  }

  // ---------------------------------------------------------------- the NFT federator

  // The depths the NFT federator promises for the main chains, in numbers: one day on the main nets.
  predicate DeepForChain(chainId: int, depth: int) {
    && (chainId == 1 ==> depth >= 240)
    && (chainId == 30 ==> depth >= 120)
    && (chainId == 42 ==> depth >= 10)
    && (chainId == 31 ==> depth >= 2)
  }

  // Main result: over any history, with up to three attempts a run that each resume from the last
  // saved page, the NFT federator never skips an event of a page it asked for as not deep enough;
  // and each vote it sends is as deep as the chain its node reported requires.
  lemma NftNeverSkips(w: World, st: State, cfg: Config, runs: nat, e: Event)
    requires Faithful(w) && Fresh(st)
    requires e in History(w, st, cfg, runs).trace
    ensures !e.TooShallow?
    ensures cfg.kind == NonFungible && e.Sent? ==>
              exists t: nat :: t < e.at
                && e.ballot.terms == Flat(NftConfirmations(w.netId(t)))
                && e.ballot.cur - e.ballot.log.blockNumber >= NftConfirmations(w.netId(t))
                && DeepForChain(w.netId(t), e.ballot.cur - e.ballot.log.blockNumber)
                && e.ballot.log.blockNumber > cfg.fromBlock
  {
    hide History, Attempt, Recorded, Lost, SameVote;
    HistoryIsSound(w, st, cfg, runs);
    assert Truthful(w, History(w, st, cfg, runs), e);
    if cfg.kind == NonFungible && e.Sent? {
      var i :| 0 <= i < |History(w, st, cfg, runs).trace| && History(w, st, cfg, runs).trace[i] == e;
      var a, b := SentInSomeAttempt(w, st, cfg, runs, i);
    }
  }
}
