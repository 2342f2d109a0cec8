/**
 The relay protocol as functions of a world and a state: what one vote, one event, one page, one
 scan, one attempt, one run and a whole history of runs do.  The classes FederatorErc20,
 FederatorNft and Heartbeat are the step-by-step programs proved against these functions.
 */
module Relay {
  import opened Options
  import opened Network
  import opened Paging

  datatype Kind = Erc20 | NonFungible | HeartbeatReader

  // `fromBlock` is the configured first block, `kind` says which of the three programs runs.
  datatype Config = Config(kind: Kind, fromBlock: nat)

  // One pass over a block range, with the values the program carries through it.
  datatype Scan =
    | Deep(cur: int, conf: Confirmations)     // ERC20, first pass: blocks deep enough for any amount
    | Shallow(cur: int, conf: Confirmations)  // ERC20, second pass: medium and small amounts only
    | Nft(cur: int)
    | Beat(cur: int)

  // The rule that fixes how deep an event must be buried before it may be voted.
  datatype Terms = Tiered(conf: Confirmations, limits: Limits) | Flat(confirmations: int) {
    function Depth(amount: int): int {
      match this
      case Tiered(conf, limits) =>
        if amount >= limits.largeAmount then conf.large
        else if amount >= limits.mediumAmount then conf.medium
        else conf.small
      case Flat(confirmations) => confirmations
    }
  }

  // A vote about to be cast: its event and id, the height and rule it was judged by, and the ticks
  // at which the contract was asked whether the id was processed or voted.
  datatype Ballot = Ballot(log: Log, tx: TxId, cur: int, terms: Terms, processedAt: nat, votedAt: nat)

  // The trace of a process, one entry per observable act.
  datatype Event =
    | Fetched(at: nat, scan: Scan, page: Page)
    | Deferred(at: nat, log: Log, scan: Scan, limits: Limits)
    | TooShallow(log: Log, scan: Scan)
    | FoundProcessed(at: nat, log: Log)
    | FoundVoted(at: nat, log: Log)
    | FoundReverted(at: nat, log: Log)
    | NotAllowed(at: nat, log: Log)
    | NotMember(at: nat)
    | Sent(at: nat, ballot: Ballot, delivery: Delivery)
    | Saved(at: nat, height: int)

  // `lastBlock` and `reverted` are the two files; `chainId` is the memo of the NFT federator, lost
  // with the process; `clock` and `trace` belong to the model.
  datatype State = State(
    clock: nat, lastBlock: Option<int>, reverted: set<TxId>, chainId: Option<int>, trace: seq<Event>)

  // A process about to start for the first time in a history, with whatever its files hold.
  predicate Fresh(st: State) {
    st.trace == [] && st.chainId.None?
  }

  datatype Stop =
    | Syncing     // returned without working: a node is syncing
    | Idle        // returned false: nothing to scan
    | Failed      // an exception
    | Exited      // process.exit(1)
    | Crashed     // killed

  datatype Outcome = Done(st: State) | Stopped(st: State, why: Stop) {
    predicate IsFailure() { Stopped? }

    function PropagateFailure(): Outcome
      requires Stopped?
    {
      this
    }

    function Extract(): State
      requires Done?
    {
      st
    }
  }

  // What no step of the protocol takes back.
  ghost predicate Extends(a: State, b: State) {
    && a.clock <= b.clock
    && a.trace <= b.trace
    && a.reverted <= b.reverted
    && (a.chainId.Some? ==> b.chainId == a.chainId)
  }

  // Between `a` and `b` nothing was fetched and no progress was saved.
  ghost predicate VotingOnly(a: State, b: State) {
    && b.lastBlock == a.lastBlock
    && forall i | |a.trace| <= i < |b.trace| :: !b.trace[i].Fetched? && !b.trace[i].Saved?
  }

  // ---------------------------------------------------------------- calls

  function Note(st: State, e: Event): State {
    st.(trace := st.trace + [e])
  }

  function Call(w: World, st: State): (out: Outcome)
    ensures Extends(st, out.st) && out.st == st.(clock := st.clock + 1)
  {
    var next := st.(clock := st.clock + 1);
    match w.fate(st.clock)
    case Answers => Done(next)
    case Fails => Stopped(next, Failed)
    case Halts => Stopped(next, Crashed)
  }

  // The chain id is asked for once per process.
  function GetCurrentChainId(w: World, st: State): (out: Outcome)
    ensures Extends(st, out.st)
    ensures out.Done? ==> out.st.chainId.Some?
  {
    if st.chainId.Some? then Done(st)
    else
      var st1 :- Call(w, st);
      Done(st1.(chainId := Some(w.netId(st.clock))))
  }

  function SaveProgress(w: World, st: State, scan: Scan, value: int): (out: Outcome)
    ensures Extends(st, out.st)
  {
    // A zero is falsy, except in the NFT federator, which saves a non-empty string.
    if value == 0 && !scan.Nft? then Done(st)
    else
      var st1 :- Call(w, st);
      Done(Note(st1.(lastBlock := Some(value)), Saved(st.clock, value)))
  }

  // ---------------------------------------------------------------- voting

  function VoteTransaction(w: World, st: State, b: Ballot): (out: Outcome)
    ensures Extends(st, out.st) && VotingOnly(st, out.st)
  {
    var st1 :- Call(w, st);  // build the call data, read the reverted file
    if b.tx in st1.reverted then Done(Note(st1, FoundReverted(st.clock, b.log)))
    else
      var st2 :- Call(w, st1);
      var delivery := w.delivery(st1.clock, b.tx);
      var st3 := Note(st2, Sent(st1.clock, b, delivery));
      match delivery
      case Mined => Call(w, st3)  // the metric
      case Refused =>
        var st4 :- Call(w, st3);  // write the reverted file
        Call(w, st4.(reverted := st4.reverted + {b.tx}))
      case LostByThrow => Stopped(st3, Failed)
      case LostByHalt => Stopped(st3, Crashed)
  }

  function CastVote(w: World, st: State, cur: int, terms: Terms, log: Log): (out: Outcome)
    ensures Extends(st, out.st) && VotingOnly(st, out.st)
  {
    var tx := w.txId(log);
    var st1 :- Call(w, st);
    if w.processed(st.clock, tx) then Done(Note(st1, FoundProcessed(st.clock, log)))
    else
      var st2 :- Call(w, st1);
      if w.voted(st1.clock, tx) then Done(Note(st2, FoundVoted(st1.clock, log)))
      else VoteTransaction(w, st2, Ballot(log, tx, cur, terms, st.clock, st1.clock))
  }

  // ---------------------------------------------------------------- events

  // The second pass leaves large amounts, and medium ones that are not deep enough, for later.
  predicate Defers(cur: int, conf: Confirmations, limits: Limits, log: Log) {
    || log.amount >= limits.largeAmount
    || (log.amount >= limits.mediumAmount && cur - log.blockNumber < conf.medium)
  }

  function LimitsToken(log: Log, sideToken: Address): Address {
    if sideToken == ZERO_ADDRESS then log.tokenAddress else sideToken
  }

  function ProcessErc20Log(w: World, st: State, scan: Scan, log: Log): (out: Outcome)
    requires scan.Deep? || scan.Shallow?
    ensures Extends(st, out.st) && VotingOnly(st, out.st)
  {
    var sideToken := w.sideToken(st.clock, log);
    var st1 :- Call(w, st);
    var limits := w.limits(st1.clock, LimitsToken(log, sideToken));
    var st2 :- Call(w, st1);
    if sideToken == ZERO_ADDRESS && !limits.allowed then Stopped(Note(st2, NotAllowed(st1.clock, log)), Failed)
    else if scan.Shallow? && Defers(scan.cur, scan.conf, limits, log) then
      Done(Note(st2, Deferred(st1.clock, log, scan, limits)))
    else CastVote(w, st2, scan.cur, Tiered(scan.conf, limits), log)
  }

  function ProcessNftLog(w: World, st: State, scan: Scan, log: Log): (out: Outcome)
    requires scan.Nft?
    ensures Extends(st, out.st) && VotingOnly(st, out.st)
  {
    var st1 :- GetCurrentChainId(w, st);
    var needed := NftConfirmations(st1.chainId.value);
    if scan.cur - log.blockNumber < needed then
      Done(Note(st1, TooShallow(log, scan)))
    else CastVote(w, st1, scan.cur, Flat(needed), log)
  }

  function ProcessEach(w: World, st: State, scan: Scan, logs: seq<Log>): (out: Outcome)
    requires !scan.Beat?
    ensures Extends(st, out.st) && VotingOnly(st, out.st)
    decreases logs
  {
    if logs == [] then Done(st)
    else
      var st1 :- if scan.Nft? then ProcessNftLog(w, st, scan, logs[0]) else ProcessErc20Log(w, st, scan, logs[0]);
      ProcessEach(w, st1, scan, logs[1..])
  }

  function ProcessLogs(w: World, st: State, scan: Scan, logs: seq<Log>): (out: Outcome)
    ensures Extends(st, out.st) && VotingOnly(st, out.st)
  {
    if scan.Beat? then Call(w, st)  // a heartbeat is only reported, with the side chain's height
    else
      var st1 :- Call(w, st);
      if !w.member(st.clock) then Stopped(Note(st1, NotMember(st.clock)), Failed)
      else ProcessEach(w, st1, scan, logs)
  }

  // ---------------------------------------------------------------- pages

  // One page: ask for its events, deal with them, and save the page's end unless this is the
  // second pass.
  function FetchPage(w: World, st: State, scan: Scan, page: Page): (out: Outcome)
    ensures Extends(st, out.st)
  {
    var st1 :- Call(w, st);
    var logs := w.logs(st.clock, page.from, page.to);
    var st2 :- ProcessLogs(w, Note(st1, Fetched(st.clock, scan, page)), scan, logs);
    if scan.Shallow? then Done(st2) else SaveProgress(w, st2, scan, page.to)
  }

  function FetchPages(w: World, st: State, scan: Scan, pages: seq<Page>): (out: Outcome)
    ensures Extends(st, out.st)
    decreases pages
  {
    if pages == [] then Done(st)
    else
      var st1 :- FetchPage(w, st, scan, pages[0]);
      FetchPages(w, st1, scan, pages[1..])
  }

  function GetLogsAndProcess(w: World, st: State, scan: Scan, from: int, to: int): (out: Outcome)
    ensures Extends(st, out.st)
  {
    if from >= to then Done(st)
    else
      var st1 :- Call(w, st);
      FetchPages(w, st1, scan, Pages(from, to))
  }

  // ---------------------------------------------------------------- runs

  // The block the next scan continues from.  A progress file that is missing, or that cannot be
  // read, counts as one that holds the configured block.
  function LastProcessed(w: World, st: State, cfg: Config): int {
    var saved := if w.readable(st.clock) then st.lastBlock.GetOr(cfg.fromBlock) else cfg.fromBlock;
    if saved < cfg.fromBlock then cfg.fromBlock else saved
  }

  function CheckSynced(w: World, st: State): (out: Outcome)
    ensures Extends(st, out.st) && out.st.lastBlock == st.lastBlock && out.st.trace == st.trace
  {
    var st1 :- Call(w, st);
    if w.mainSyncing(st.clock) then Stopped(st1, Syncing)
    else
      var st2 :- Call(w, st1);
      if w.sideSyncing(st1.clock) then Stopped(st2, Syncing) else Done(st2)
  }

  // The two passes of an ERC20 run, once the heights are known.
  function TwoPasses(w: World, st: State, cfg: Config, cur: int, conf: Confirmations): (out: Outcome)
    ensures Extends(st, out.st)
  {
    var toBlock := cur - conf.large;
    var newToBlock := cur - conf.small;
    if toBlock <= 0 && newToBlock <= 0 then Stopped(st, Idle)
    else
      var base := LastProcessed(w, st, cfg);
      var st1 :- Call(w, st);
      if base >= toBlock && base >= newToBlock then Stopped(st1, Idle)
      else
        var st2 :- GetLogsAndProcess(w, st1, Deep(cur, conf), base + 1, toBlock);
        GetLogsAndProcess(w, st2, Shallow(cur, conf), toBlock, newToBlock)
  }

  // The single pass of the NFT federator and of the heartbeat reader.
  function OnePass(w: World, st: State, cfg: Config, scan: Scan, toBlock: int): (out: Outcome)
    ensures Extends(st, out.st)
  {
    if toBlock <= 0 then Stopped(st, Idle)
    else
      var base := LastProcessed(w, st, cfg);
      var st1 :- Call(w, st);
      if base >= toBlock then Stopped(st1, Idle)
      else if scan.Beat? then FetchPages(w, st1, scan, Pages(base + 1, toBlock))
      else GetLogsAndProcess(w, st1, scan, base + 1, toBlock)
  }

  function Attempt(w: World, st: State, cfg: Config): (out: Outcome)
    ensures Extends(st, out.st)
  {
    var cur := w.height(st.clock);
    var st1 :- Call(w, st);
    match cfg.kind
    case Erc20 =>
      var st2 :- CheckSynced(w, st1);
      var conf := w.confirmations(st2.clock);
      var st3 :- Call(w, st2);
      TwoPasses(w, st3, cfg, cur, conf)
    case NonFungible =>
      var st2 :- GetCurrentChainId(w, st1);
      var st3 :- CheckSynced(w, st2);
      OnePass(w, st3, cfg, Nft(cur), cur - NftConfirmations(st3.chainId.value))
    case HeartbeatReader =>
      OnePass(w, st1, cfg, Beat(cur), cur)
  }

  // Only an exception is retried; when the attempts are used up the process exits.
  function Attempts(w: World, st: State, cfg: Config, retries: nat): (out: Outcome)
    requires retries > 0
    ensures Extends(st, out.st)
    ensures !(out.Stopped? && out.why.Failed?)
    decreases retries
  {
    var out := Attempt(w, st, cfg);
    if !(out.Stopped? && out.why.Failed?) then out
    else if retries == 1 then Stopped(out.st, Exited)
    else Attempts(w, out.st, cfg, retries - 1)
  }

  function Retries(kind: Kind): nat {
    if kind == Erc20 then 1 else 3
  }

  function Run(w: World, st: State, cfg: Config): (out: Outcome)
    ensures Extends(st, out.st)
  {
    if cfg.kind == HeartbeatReader then
      var st1 :- Call(w, st);
      if IsRskChain(w.netId(st.clock)) then Attempts(w, st1, cfg, Retries(cfg.kind))
      else Stopped(st1, Exited)
    else Attempts(w, st, cfg, Retries(cfg.kind))
  }

  // A process that died is started again with nothing but its files.
  function Restart(out: Outcome): State {
    if out.Stopped? && (out.why.Exited? || out.why.Crashed? || out.why.Failed?) then out.st.(chainId := None)
    else out.st
  }

  function History(w: World, st: State, cfg: Config, runs: nat): State {
    if runs == 0 then st
    else Restart(Run(w, History(w, st, cfg, runs - 1), cfg))
  }
}
