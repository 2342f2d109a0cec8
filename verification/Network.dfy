/**
 What a federator can see of the outside: the two chains, their contracts and its own disk.

 Time is counted in calls.  Every call the process makes to a node, a contract or the disk takes
 one tick, and a `World` fixes, for every tick, what that call would answer.  Nothing relates the
 answers of two ticks unless an assumption below says so: chain heights may fall, confirmations
 and limits may change, other federators may vote, any call may fail and the process may be
 killed at any tick.  A statement about all worlds is a statement about all environments.
 */
module Network {

  type TxId = string
  type Address = string

  const ZERO_ADDRESS: Address := "0x0000000000000000000000000000000000000000"

  lemma ZeroAddressIsZero()
    ensures |ZERO_ADDRESS| == 42 && ZERO_ADDRESS[0] == '0' && ZERO_ADDRESS[1] == 'x'
    ensures forall i | 2 <= i < 42 :: ZERO_ADDRESS[i] == '0'
  {
  }

  // A `Cross` event.  `payload` stands for the fields that are only passed on to the contract.
  datatype Log = Log(
    blockNumber: int, transactionHash: string, logIndex: nat,
    tokenAddress: Address, amount: nat, payload: string)

  datatype Confirmations = Confirmations(small: int, medium: int, large: int)

  datatype Limits = Limits(allowed: bool, mediumAmount: int, largeAmount: int)

  // How a call ends: with its answer, with an exception, or with the process being killed.
  datatype Fate = Answers | Fails | Halts

  // How a vote transaction ends.  `Refused` is every way of getting `status: false` back: a failed
  // receipt, or any exception, which `sendTransaction` swallows.  In the last two cases the process
  // never learns the outcome, because the error handler itself throws or the process dies.
  datatype Delivery = Mined | Refused | LostByThrow | LostByHalt

  datatype World = World(
    fate: nat -> Fate,
    // Origin chain.
    height: nat -> int,
    mainSyncing: nat -> bool,
    netId: nat -> int,
    emitted: (nat, Log) -> bool,
    logs: (nat, int, int) -> seq<Log>,
    confirmations: nat -> Confirmations,
    limits: (nat, Address) -> Limits,
    sideToken: (nat, Log) -> Address,
    // Destination chain.
    sideSyncing: nat -> bool,
    member: nat -> bool,
    txId: Log -> TxId,
    processed: (nat, TxId) -> bool,
    voted: (nat, TxId) -> bool,
    delivery: (nat, TxId) -> Delivery,
    // Disk: whether the progress file can be read.
    readable: nat -> bool)

  // Assumption: getPastEvents answers with exactly the events the node holds for those blocks.
  ghost predicate Faithful(w: World) {
    forall t: nat, from: int, to: int, log: Log ::
      log in w.logs(t, from, to) <==> (from <= log.blockNumber <= to && w.emitted(t, log))
  }

  // Assumption: an event buried `depth` blocks deep when the height is read stays as it is.
  ghost predicate Final(w: World, depth: int) {
    forall t: nat, t': nat, log: Log ::
      t <= t' && w.height(t) - log.blockNumber >= depth ==> w.emitted(t', log) == w.emitted(t, log)
  }

  // Assumption: the destination chain does not forget a vote or an execution.
  ghost predicate Remembers(w: World) {
    && (forall t: nat, t': nat, tx: TxId :: t <= t' && w.processed(t, tx) ==> w.processed(t', tx))
    && (forall t: nat, t': nat, tx: TxId :: t <= t' && w.voted(t, tx) ==> w.voted(t', tx))
  }

  // From tick `t` on the chain shows `tx` as voted by us for ever, or as processed for ever.
  ghost predicate VisibleFrom(w: World, t: nat, tx: TxId) {
    || (forall t': nat :: t <= t' ==> w.voted(t', tx))
    || (forall t': nat :: t <= t' ==> w.processed(t', tx))
  }

  const RSK_TEST_NET_CHAIN_ID := 31
  const ETH_KOVAN_CHAIN_ID := 42
  const ETH_MAIN_NET_CHAIN_ID := 1
  const RSK_MAIN_NET_CHAIN_ID := 30

  // Confirmations an NFT crossing needs, by the id of the origin chain.
  function NftConfirmations(chainId: int): (depth: nat)
    ensures chainId == 1 ==> depth == 240
    ensures chainId == 30 ==> depth == 120
    ensures chainId == 42 ==> depth == 10
    ensures chainId == 31 ==> depth == 2
    ensures chainId !in {1, 30, 31, 42} ==> depth == 0
  {
    if chainId == RSK_TEST_NET_CHAIN_ID then 2
    else if chainId == ETH_KOVAN_CHAIN_ID then 10
    else if chainId == ETH_MAIN_NET_CHAIN_ID then 240
    else if chainId == RSK_MAIN_NET_CHAIN_ID then 120
    else 0
  }

  predicate IsRskChain(chainId: int) {
    chainId in {0, 5777, 30, 31, 33}
  }
}
