/**
 A federation: several federators, each with its own nodes, disk and history.  The contract
 executes a crossing when a strict majority has voted for it.
 */
module Quorum {
  import opened Network
  import opened Relay
  import opened RelaySafety
  import opened RelayJudgement

  // A federator running the program: its view of the world and how long it has been running.
  datatype Federator = Federator(w: World, start: State, cfg: Config, runs: nat) {
    function Trace(): seq<Event> {
      History(w, start, cfg, runs).trace
    }

    ghost predicate Honest() {
      Faithful(w) && Fresh(start)
    }

    // The vote was judged by the rule of the program, on what its own attempt had read.
    ghost predicate Judged(e: Event)
      requires e.Sent?
    {
      OwnAttempt(w, cfg, start, History(w, start, cfg, runs), e)
    }

    ghost predicate VotedFor(tx: TxId) {
      exists e :: e in Trace() && e.Sent? && e.ballot.tx == tx
    }
  }

  lemma SubsetIsSmaller(a: set<nat>, b: set<nat>)
    requires a <= b
    ensures |a| <= |b|
  {
    assert b == a + (b - a);
  }

  lemma SomeHonestVoter(voters: set<nat>, faulty: set<nat>)
    returns (k: nat)
    requires |voters| > |faulty|
    ensures k in voters && k !in faulty
  {
    if forall m | m in voters :: m in faulty {
      SubsetIsSmaller(voters, faulty);
    }
    k :| k in voters && k !in faulty;
  }

  lemma JustifiedId(w: World, e: Event)
    requires e.Sent? && Justified(w, e)
    ensures e.ballot.tx == w.txId(e.ballot.log)
  {
  }

  // Main result: if at most half of the federators do something else than run this program, every
  // crossing a strict majority voted for is an event some honest federator's node reported, with no
  // vote and no execution recorded when that federator asked, and buried as deep as the rule of its
  // program requires, under the height that node reported to the attempt that sent the vote.
  lemma ExecutedCrossingIsReal(
    members: seq<Federator>, faulty: set<nat>, voters: set<nat>, tx: TxId)
    returns (k: nat, e: Event)
    requires forall m | m in voters :: m < |members|
    requires 2 * |faulty| <= |members| < 2 * |voters|
    requires forall m: nat | m < |members| && m !in faulty :: members[m].Honest()
    requires forall m | m in voters && m !in faulty :: members[m].VotedFor(tx)
    ensures k < |members| && k !in faulty
    ensures e in members[k].Trace() && e.Sent? && e.ballot.tx == tx == members[k].w.txId(e.ballot.log)
    ensures Justified(members[k].w, e) && members[k].Judged(e)
  {
    hide History, Attempt, Justified, Recorded, Lost, SameVote;
    k := SomeHonestVoter(voters, faulty);
    var m := members[k];
    e :| e in m.Trace() && e.Sent? && e.ballot.tx == tx;
    HistoryIsSound(m.w, m.start, m.cfg, m.runs);
    JustifiedId(m.w, e);
    VotesAreJudgedByTheirAttempt(m.w, m.start, m.cfg, m.runs);
    var i :| 0 <= i < |m.Trace()| && m.Trace()[i] == e;
  }
}
