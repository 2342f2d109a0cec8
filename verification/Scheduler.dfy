/**
 The polling scheduler.  `start` and `poll` await the service, so a run is in flight until the
 service settles; only then is the next timer armed.  The model splits each method at its `await`
 and lets the events of the environment come in any order.
 */
module Scheduling {
  import opened Options

  // `running` and `pollingTimeout` are the fields; `armed` are the timers the environment holds,
  // `inFlight` the runs of the service that have not settled, `begun` how many ever began.
  datatype State = State(
    running: bool, pollingTimeout: Option<nat>, armed: set<nat>, nextTimer: nat, inFlight: nat, begun: nat)

  const INITIAL := State(false, None, {}, 0, 0, 0)

  datatype Act = Start | TimerFires(id: nat) | ServiceSucceeds | ServiceFails | Stop

  // Timers fire only when armed, and a service can settle only when a run is in flight.
  predicate Enabled(s: State, act: Act) {
    match act
    case TimerFires(id) => id in s.armed
    case ServiceSucceeds => s.inFlight > 0
    case ServiceFails => s.inFlight > 0
    case Start => true
    case Stop => true
  }

  // poll, up to its await.
  function Poll(s: State): State {
    if s.running then s.(pollingTimeout := None, inFlight := s.inFlight + 1, begun := s.begun + 1) else s
  }

  function Step(s: State, act: Act): State {
    match act
    case Start => if s.running then s else Poll(s.(running := true))
    case TimerFires(id) => Poll(s.(armed := s.armed - {id}))
    case ServiceSucceeds =>
      if s.inFlight == 0 then s
      else State(s.running, Some(s.nextTimer), s.armed + {s.nextTimer}, s.nextTimer + 1, s.inFlight - 1, s.begun)
    case ServiceFails => if s.inFlight == 0 then s else s.(inFlight := s.inFlight - 1)
    case Stop =>
      if s.running && s.pollingTimeout.Some? then
        s.(armed := s.armed - {s.pollingTimeout.value}, pollingTimeout := None)
      else s
  }

  predicate Possible(s: State, acts: seq<Act>)
    decreases acts
  {
    acts == [] || (Enabled(s, acts[0]) && Possible(Step(s, acts[0]), acts[1..]))
  }

  function After(s: State, acts: seq<Act>): State
    decreases acts
  {
    if acts == [] then s else After(Step(s, acts[0]), acts[1..])
  }

  // The one armed timer is the one the field remembers, and a run in flight excludes it.
  ghost predicate Sane(s: State) {
    && s.inFlight + |s.armed| <= 1
    && s.armed == (if s.pollingTimeout.Some? then {s.pollingTimeout.value} else {})
    && (forall id | id in s.armed :: id < s.nextTimer)
    && (!s.running ==> s.inFlight == 0 && s.armed == {} && s.begun == 0)
  }

  lemma StepKeepsSane(s: State, act: Act)
    requires Sane(s) && Enabled(s, act)
    ensures Sane(Step(s, act))
  {
  }

  lemma {:induction false} SaneForGood(s: State, acts: seq<Act>)
    requires Sane(s) && Possible(s, acts)
    ensures Sane(After(s, acts))
    decreases acts
  {
    if acts == [] {
    } else {
      StepKeepsSane(s, acts[0]);
      SaneForGood(Step(s, acts[0]), acts[1..]);
    }
  }

  // Main result: in every interleaving from the start, runs in flight and armed timers together are
  // at most one, so two runs never overlap.  So the results below are about every reachable state.
  lemma PollingNeverOverlaps(acts: seq<Act>)
    requires Possible(INITIAL, acts)
    ensures Sane(After(INITIAL, acts))
    ensures After(INITIAL, acts).inFlight + |After(INITIAL, acts).armed| <= 1
  {
    SaneForGood(INITIAL, acts);
  }

  // An accepted start has a run in flight when it returns to its caller.
  lemma StartRunsAtOnce(s: State)
    requires Sane(s) && !s.running
    ensures Step(s, Start).running && Step(s, Start).inFlight == 1 && Step(s, Start).begun == s.begun + 1
  {
  }

  // Main result: once started, and while the service does not fail and nobody stops it, the polling
  // goes on: there is always a run in flight or a timer armed, and a timer that fires begins a run.
  lemma {:induction false} PollingGoesOn(s: State, acts: seq<Act>)
    requires Sane(s) && s.running && s.inFlight + |s.armed| == 1
    requires Possible(s, acts) && ServiceFails !in acts && Stop !in acts
    ensures var end := After(s, acts);
            && end.inFlight + |end.armed| == 1
            && forall id | id in end.armed :: Step(end, TimerFires(id)).begun == end.begun + 1
    decreases acts
  {
    if acts == [] {
    } else {
      assert acts[0] in acts && forall act | act in acts[1..] :: act in acts;
      StepKeepsSane(s, acts[0]);
      PollingGoesOn(Step(s, acts[0]), acts[1..]);
    }
  }

  // Once started the scheduler stays started: stopping does not reset the field, so a second start
  // is refused for ever and begins nothing.
  lemma {:induction false} StartsOnlyOnce(s: State, acts: seq<Act>)
    requires s.running
    ensures After(s, acts).running
    ensures Step(After(s, acts), Start) == After(s, acts)
    decreases acts
  {
    if acts == [] {
    } else {
      StartsOnlyOnce(Step(s, acts[0]), acts[1..]);
    }
  }

  // Nothing in flight, no timer, started: the scheduler is finished.
  predicate Finished(s: State) {
    s.running && s.inFlight == 0 && s.armed == {}
  }

  lemma {:induction false} FinishedForGood(s: State, acts: seq<Act>)
    requires Finished(s) && Possible(s, acts)
    ensures Finished(After(s, acts)) && After(s, acts).begun == s.begun
    decreases acts
  {
    if acts == [] {
    } else {
      FinishedForGood(Step(s, acts[0]), acts[1..]);
    }
  }

  // A run may still begin, in some future.
  ghost predicate MayRunAgain(s: State) {
    exists acts :: Possible(s, acts) && After(s, acts).begun > s.begun
  }

  lemma RunsAgain(s: State, acts: seq<Act>)
    requires Sane(s)
    requires if s.running then acts == [ServiceSucceeds, TimerFires(s.nextTimer)] && s.inFlight > 0 else acts == [Start]
    ensures MayRunAgain(s)
  {
    var next := Step(s, acts[0]);
    if s.running {
      var last := Step(next, acts[1]);
      assert last.begun == s.begun + 1;
      assert acts[1..] == [acts[1]] && acts[1..][1..] == [];
      assert After(last, acts[1..][1..]) == last && Possible(last, acts[1..][1..]);
      assert After(next, acts[1..]) == last && Possible(next, acts[1..]);
    } else {
      assert next.begun == s.begun + 1;
      assert After(next, acts[1..]) == next && Possible(next, acts[1..]);
    }
    assert Possible(s, acts) && After(s, acts).begun > s.begun;
  }

  // Main result: after a stop no run ever begins again exactly when the scheduler had been started
  // and no run was in flight.  A stop during a run does not keep the next timer from being armed.
  lemma StopIsFinalExactlyWhen(s: State)
    requires Sane(s)
    ensures !MayRunAgain(Step(s, Stop)) <==> s.running && s.inFlight == 0
  {
    var stopped := Step(s, Stop);
    StepKeepsSane(s, Stop);
    if s.running && s.inFlight == 0 {
      forall acts | Possible(stopped, acts)
        ensures After(stopped, acts).begun == stopped.begun
      {
        FinishedForGood(stopped, acts);
      }
    } else if s.running {
      RunsAgain(stopped, [ServiceSucceeds, TimerFires(stopped.nextTimer)]);
    } else {
      RunsAgain(stopped, [Start]);
    }
  }

  // A service that fails ends the polling.
  lemma FailureIsFinal(s: State)
    requires Sane(s) && s.inFlight > 0
    ensures !MayRunAgain(Step(s, ServiceFails))
  {
    var failed := Step(s, ServiceFails);
    forall acts | Possible(failed, acts)
      ensures After(failed, acts).begun == failed.begun
    {
      FinishedForGood(failed, acts);
    }
  }

  // ---------------------------------------------------------------- the program

  class Scheduler {
    var running: bool
    var pollingTimeout: Option<nat>
    ghost var armed: set<nat>
    ghost var inFlight: nat
    ghost var begun: nat
    var nextTimer: nat

    constructor ()
      ensures Snapshot() == INITIAL
    {
      running, pollingTimeout, armed, inFlight, begun, nextTimer := false, None, {}, 0, 0, 0;
    }

    ghost function Snapshot(): State
      reads this
    {
      State(running, pollingTimeout, armed, nextTimer, inFlight, begun)
    }

    // poll, up to `await this.service.run()`.
    method BeginPoll()
      modifies this
      ensures Snapshot() == Poll(old(Snapshot()))
    {
      if running {
        pollingTimeout := None;
        inFlight := inFlight + 1;
        begun := begun + 1;
      }
    }

    // `ok` is false when the source throws.
    method StartPolling() returns (ok: bool)
      modifies this
      ensures Snapshot() == Step(old(Snapshot()), Start)
      ensures ok <==> !old(running)
      ensures ok ==> running && inFlight == old(inFlight) + 1
    {
      if running {
        return false;
      }
      running := true;
      BeginPoll();
      ok := true;
    }

    method OnTimer(ghost id: nat)
      requires id in armed
      modifies this
      ensures Snapshot() == Step(old(Snapshot()), TimerFires(id))
    {
      armed := armed - {id};
      BeginPoll();
    }

    // poll, after its await: the next timer is armed whatever `stop` did meanwhile.
    method OnServiceSuccess()
      requires inFlight > 0
      modifies this
      ensures Snapshot() == Step(old(Snapshot()), ServiceSucceeds)
    {
      inFlight := inFlight - 1;
      armed := armed + {nextTimer};
      pollingTimeout := Some(nextTimer);
      nextTimer := nextTimer + 1;
    }

    // The exception leaves poll; no timer is armed.
    method OnServiceFailure()
      requires inFlight > 0
      modifies this
      ensures Snapshot() == Step(old(Snapshot()), ServiceFails)
    {
      inFlight := inFlight - 1;
    }

    method StopPolling()
      modifies this
      ensures Snapshot() == Step(old(Snapshot()), Stop)
    {
      if running {
        if pollingTimeout.Some? {
          armed := armed - {pollingTimeout.value};
          pollingTimeout := None;
        }
      }
    }
  }
}
