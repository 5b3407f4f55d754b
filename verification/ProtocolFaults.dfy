/**
 Removals of the queue from outside: what the coordinator still does after one, and
 exactly which ones leave every program able to end.
 */
module ProtocolFaults {
  import opened Wire
  import opened Kernel
  import opened Coordination
  import opened ModeEquivalence
  import opened Protocol
  import opened ProtocolSafety
  import opened ProtocolTranscript
  import opened ProtocolLiveness

  // --------------------------------------- the coordinator without its queue

  predicate QueueGone(st: State) {
    st.started && st.cid <= st.kernel.generation && !Exists(st.kernel, st.cid)
  }

  lemma CallsFail(z: Setup, st: State, actor: Actor)
    requires QueueGone(st)
    ensures var st' := Next(z, st, actor);
            QueueGone(st') && (st'.oks == st.oks || st'.oks == st.oks + [false])
  {
    hide RadioDecode, SpectrumDecode, FirstOf, Without, NextCall, Resume, Decide;
  }

  lemma OneFailureMore(p: Params, c: Coordinator)
    requires Calling(c)
    ensures Trace(p, c, [false]) == Trace(p, c, [])
  {
    hide NextCall, Resume;
    assert Tail([false]) == [];
  }

  lemma NextWithoutQueue(z: Setup, st: State, actor: Actor)
    requires QueueGone(st)
    ensures var st' := Next(z, st, actor);
            && QueueGone(st') && st.calls <= st'.calls
            && st'.calls[|st.calls|..] + Trace(z.p, st'.coord, []) == Trace(z.p, st.coord, [])
  {
    var st' := Next(z, st, actor);
    CallsFail(z, st, actor);
    NextFollowsProgram(z, st, actor, []);
    if actor.CoordinatorActs? {
      CoordinatorStepShape(z, st);
    } else {
      OthersLeaveCoordinator(z, st, actor);
    }
    hide Next, Trace, NextCall, Resume, Decide, QueueGone;
    if st'.oks == st.oks {
      assert st'.oks[|st.oks|..] + [] == [];
    } else {
      assert st'.oks[|st.oks|..] + [] == [false];
      OneFailureMore(z.p, st.coord);
    }
  }

  /**
   Once its queue is gone, whoever does what and even if another queue takes the key, the
   coordinator's calls are exactly those that its program makes when every call fails.
   */
  lemma {:induction false} RunWithoutQueue(z: Setup, st: State, schedule: seq<Actor>)
    requires QueueGone(st)
    ensures var end := Run(z, st, schedule);
            && QueueGone(end) && st.calls <= end.calls
            && end.calls[|st.calls|..] + Trace(z.p, end.coord, []) == Trace(z.p, st.coord, [])
    decreases |schedule|
  {
    hide Next, Trace, QueueGone;
    if schedule == [] {
      assert st.calls[|st.calls|..] + Trace(z.p, st.coord, []) == Trace(z.p, st.coord, []);
    } else {
      var mid := Next(z, st, schedule[0]);
      NextWithoutQueue(z, st, schedule[0]);
      RunWithoutQueue(z, mid, schedule[1..]);
      var end := Run(z, mid, schedule[1..]);
      SuffixesJoin(st.calls, mid.calls, end.calls, Trace(z.p, end.coord, []));
    }
  }

  /** Which loop the coordinator is in, and where its counters are, holds however its calls went. */
  predicate InMode(z: Setup, c: Coordinator) {
    if z.script.Manual? then IsManual(c) else OnSchedule(z.p, c)
  }

  lemma StartsInMode(z: Setup)
    ensures InMode(z, Start(z).coord)
  {
    assert GainAt(z.p, 0) == z.p.startingIfGain;
  }

  lemma NextStaysInMode(z: Setup, st: State, actor: Actor)
    requires InMode(z, st.coord)
    ensures InMode(z, Next(z, st, actor).coord)
  {
    if actor.CoordinatorActs? {
      CoordinatorStepShape(z, st);
      if !z.script.Manual? {
        StaysOnSchedule(z.p, st.coord, true);
        StaysOnSchedule(z.p, st.coord, false);
      }
      hide Next, OnSchedule;
    } else {
      OthersLeaveCoordinator(z, st, actor);
    }
  }

  lemma {:induction false} RunStaysInMode(z: Setup, st: State, schedule: seq<Actor>)
    requires InMode(z, st.coord)
    ensures InMode(z, Run(z, st, schedule).coord)
    decreases |schedule|
  {
    hide Next, InMode;
    if schedule != [] {
      NextStaysInMode(z, st, schedule[0]);
      RunStaysInMode(z, Next(z, st, schedule[0]), schedule[1..]);
    }
  }

  lemma GoneInRun(z: Setup, before: seq<Actor>)
    requires Valid(z.p)
    requires var st := Run(z, Start(z), before); st.started && !Exists(st.kernel, st.cid)
    ensures var st := Run(z, Start(z), before); QueueGone(st) && InMode(z, st.coord)
  {
    hide Run, InMode, Inv;
    ReachableInv(z, before);
    StartsInMode(z);
    RunStaysInMode(z, Start(z), before);
    IdentifiersAreOld(z, Run(z, Start(z), before));
  }

  lemma IdentifiersAreOld(z: Setup, st: State)
    requires Inv(z, st)
    ensures st.started ==> st.cid <= st.kernel.generation
  {
    hide Results, RadioWork, SpectrumWork, Phase;
  }

  /**
   In manual mode, from any moment at which the coordinator's queue is gone, however many
   lines are still to be read and whatever the others do, it makes at most three more
   calls, and the last call of a session it has not yet left is the removal.
   */
  lemma ManualStopsAfterRemoval(z: Setup, before: seq<Actor>, after: seq<Actor>)
    requires Valid(z.p) && z.script.Manual?
    requires var st := Run(z, Start(z), before); st.started && !Exists(st.kernel, st.cid)
    ensures var st := Run(z, Start(z), before);
            var end := Run(z, st, after);
            && st.calls <= end.calls && |end.calls| <= |st.calls| + 3
            && (!st.coord.Exited? && end.coord.Exited? ==>
                  |end.calls| > |st.calls| && end.calls[|end.calls| - 1] == Remove)
  {
    var st := Run(z, Start(z), before);
    var end := Run(z, st, after);
    GoneInRun(z, before);
    RunWithoutQueue(z, st, after);
    ManualAfterRemoval(z.p, st.coord);
    if !st.coord.Exited? && end.coord.Exited? {
      TraceEndsWithRemove(z.p, st.coord, []);
      assert Trace(z.p, end.coord, []) == [];
      hide Run, Trace;
      assert end.calls[|st.calls|..] + [] == end.calls[|st.calls|..];
    }
  }

  /**
   In automatic mode, from any moment at which the coordinator's queue is gone, it still
   attempts exactly the rest of the schedule: the gain and the power command of every
   remaining measurement, no further receive beyond one already due, then both terminate
   commands and the removal.
   */
  lemma AutomaticGoesOnAfterRemoval(z: Setup, before: seq<Actor>, after: seq<Actor>)
    requires Valid(z.p) && z.script.Automatic?
    requires var st := Run(z, Start(z), before); st.started && !Exists(st.kernel, st.cid)
    ensures var st := Run(z, Start(z), before);
            var end := Run(z, st, after);
            && OnSchedule(z.p, st.coord) && OnSchedule(z.p, end.coord) && st.calls <= end.calls
            && end.calls[|st.calls|..] + CallsWithoutQueue(z.p, end.coord) == CallsWithoutQueue(z.p, st.coord)
            && (end.coord.Exited? ==> end.calls == st.calls + CallsWithoutQueue(z.p, st.coord))
  {
    var st := Run(z, Start(z), before);
    var end := Run(z, st, after);
    GoneInRun(z, before);
    RunStaysInMode(z, st, after);
    RunWithoutQueue(z, st, after);
    AutomaticWithoutQueue(z.p, st.coord);
    AutomaticWithoutQueue(z.p, end.coord);
    hide Run, Trace, OnSchedule;
    if end.coord.Exited? {
      assert CallsWithoutQueue(z.p, end.coord) == [];
      hide CallsWithoutQueue;
      assert end.calls[|st.calls|..] + [] == end.calls[|st.calls|..];
      assert end.calls == st.calls + end.calls[|st.calls|..];
    }
  }

  // ------------------------------------------------------ able to end

  predicate ServersStarted(st: State) {
    !st.radio.pc.NotStarted? && !st.spectrum.pc.NotStarted?
  }

  /** Both servers are on a queue that is gone, and a queue exists only for a coordinator that will remove it. */
  predicate WindingDown(z: Setup, st: State) {
    && ServersStarted(st)
    && st.radio.id <= st.kernel.generation && !Exists(st.kernel, st.radio.id)
    && st.spectrum.id <= st.kernel.generation && !Exists(st.kernel, st.spectrum.id)
    && (st.kernel.queue.Some? ==> Alive(st))
    && (!st.started || st.kernel.queue.Some? ==> NothingToMeasure(z, st.coord) && !st.coord.Exited?)
  }

  lemma ServersWindDown(z: Setup, st: State, actor: Actor)
    requires WindingDown(z, st) && !actor.CoordinatorActs?
    ensures WindingDown(z, Next(z, st, actor))
  {
    OthersEffect(z, st, actor);
    hide Next, NothingToMeasure;
  }

  lemma CoordinatorWindsDown(z: Setup, st: State)
    requires WindingDown(z, st)
    ensures WindingDown(z, Next(z, st, CoordinatorActs))
  {
    CoordinatorEffect(z, st);
    if st.started && st.kernel.queue.Some? {
      NothingHoldsItUp(z, st);
    }
    hide Next, NothingToMeasure;
  }

  lemma {:induction false} RunWindsDown(z: Setup, st: State, schedule: seq<Actor>)
    requires WindingDown(z, st)
    ensures WindingDown(z, Run(z, st, schedule))
    decreases |schedule|
  {
    hide Next, WindingDown;
    if schedule != [] {
      if schedule[0].CoordinatorActs? {
        CoordinatorWindsDown(z, st);
      } else {
        ServersWindDown(z, st, schedule[0]);
      }
      RunWindsDown(z, Next(z, st, schedule[0]), schedule[1..]);
    }
  }

  lemma QuiescentHasWoundDown(z: Setup, st: State)
    requires WindingDown(z, st) && Quiescent(z, st)
    ensures AllDone(st)
  {
    if st.started && st.kernel.queue.Some? {
      NothingHoldsItUp(z, st);
    }
    hide IfGainText, PowerText, TerminateText, RadioDecode, SpectrumDecode, FirstOf, Without, NothingToMeasure;
  }

  // --------------------------------------------------- stranded programs

  predicate OpenedBy(s: Server, last: nat) {
    !s.pc.NotStarted? && s.id <= last
  }

  /** Queue `last` is gone, and a program that has not started yet will make another. */
  predicate NextQueueToCome(st: State, last: nat) {
    && st.kernel.generation == last && st.kernel.queue.None? && !AllStarted(st)
    && (st.started ==> st.cid <= last)
    && (st.started || OpenedBy(st.radio, last) || OpenedBy(st.spectrum, last))
  }

  /**
   The next queue outlives everybody: the coordinator would remove it, but knows only an
   older one, or waits for a server that is still on an older one.
   */
  predicate NextQueueStays(st: State, last: nat) {
    && st.kernel.generation == last + 1 && st.kernel.queue.Some?
    && (|| (st.started && st.cid <= last)
        || ((st.started ==> st.cid == last + 1) && (OpenedBy(st.radio, last) || OpenedBy(st.spectrum, last))))
  }

  predicate Stranded(st: State, last: nat) {
    NextQueueToCome(st, last) || NextQueueStays(st, last)
  }

  /** With something to measure, the coordinator does not remove a queue that a server has missed. */
  lemma RemovesOnlyItsOwn(z: Setup, st: State)
    requires N(z) >= 1 && Inv(z, st) && Alive(st) && st.coord.Removing?
    ensures st.radio.id == st.cid && st.spectrum.id == st.cid
  {
    hide IfGainText, PowerText, TerminateText, RadioDecode, SpectrumDecode, AtMeasurement, RadioWork, SpectrumWork;
  }

  lemma CoordinatorKeepsStranded(z: Setup, st: State, last: nat)
    requires N(z) >= 1 && Inv(z, st) && Stranded(st, last)
    ensures Stranded(Next(z, st, CoordinatorActs), last)
  {
    CoordinatorEffect(z, st);
    if Alive(st) && st.coord.Removing? {
      RemovesOnlyItsOwn(z, st);
    }
    hide Next, Inv;
  }

  lemma ServersKeepStranded(z: Setup, st: State, actor: Actor, last: nat)
    requires Stranded(st, last) && (actor.RadioActs? || actor.SpectrumActs?)
    ensures Stranded(Next(z, st, actor), last)
  {
    OthersEffect(z, st, actor);
    hide Next;
  }

  lemma {:induction false} RunKeepsStranded(z: Setup, st: State, schedule: seq<Actor>, last: nat)
    requires Valid(z.p) && N(z) >= 1 && Inv(z, st) && Stranded(st, last) && NoFaults(schedule)
    ensures Stranded(Run(z, st, schedule), last)
    decreases |schedule|
  {
    hide Next, Inv, Stranded;
    if schedule != [] {
      NextKeeps(z, st, schedule[0]);
      if schedule[0].CoordinatorActs? {
        CoordinatorKeepsStranded(z, st, last);
      } else {
        ServersKeepStranded(z, st, schedule[0], last);
      }
      RunKeepsStranded(z, Next(z, st, schedule[0]), schedule[1..], last);
    }
  }

  // ----------------------------------------------- the exact condition

  predicate SomebodyOpened(st: State) {
    st.kernel.generation >= 1 ==> st.started || !st.radio.pc.NotStarted? || !st.spectrum.pc.NotStarted?
  }

  lemma NextOpened(z: Setup, st: State, actor: Actor)
    requires SomebodyOpened(st)
    ensures SomebodyOpened(Next(z, st, actor))
  {
    if actor.CoordinatorActs? {
      CoordinatorEffect(z, st);
    } else {
      OthersEffect(z, st, actor);
    }
    hide Next;
  }

  lemma {:induction false} RunOpened(z: Setup, st: State, schedule: seq<Actor>)
    requires SomebodyOpened(st)
    ensures SomebodyOpened(Run(z, st, schedule))
    decreases |schedule|
  {
    hide Next, SomebodyOpened;
    if schedule != [] {
      NextOpened(z, st, schedule[0]);
      RunOpened(z, Next(z, st, schedule[0]), schedule[1..]);
    }
  }

  /** However the programs go on after a removal in this state, once none can move all are over. */
  ghost predicate RemovalIsHarmless(z: Setup, st: State) {
    forall rest: seq<Actor> ::
      var end := Run(z, Next(z, st, FaultActs), rest);
      NoFaults(rest) && Quiescent(z, end) ==> AllDone(end)
  }

  lemma HarmlessRemoval(z: Setup, st: State)
    requires Inv(z, st) && st.kernel.queue.Some?
    requires ServersStarted(st) && (st.started || N(z) == 0)
    ensures RemovalIsHarmless(z, st)
  {
    var after := Next(z, st, FaultActs);
    assert WindingDown(z, after);
    hide Next, Inv, Quiescent, AllDone, WindingDown;
    forall rest: seq<Actor> | NoFaults(rest) && Quiescent(z, Run(z, after, rest))
      ensures AllDone(Run(z, after, rest))
    {
      RunWindsDown(z, after, rest);
      QuiescentHasWoundDown(z, Run(z, after, rest));
    }
  }

  lemma StrandingRemoval(z: Setup, st: State)
    requires Valid(z.p) && N(z) >= 1 && Inv(z, st) && SomebodyOpened(st)
    requires st.kernel.queue.Some? && !AllStarted(st)
    ensures !RemovalIsHarmless(z, st)
  {
    var after, last := Next(z, st, FaultActs), st.kernel.generation;
    assert Stranded(after, last);
    NextKeeps(z, st, FaultActs);
    var rest := RunToTheEnd(z, after);
    RunKeepsStranded(z, after, rest, last);
    assert !AllDone(Run(z, after, rest));
  }

  lemma StrandingWithNothingToMeasure(z: Setup, st: State)
    requires N(z) == 0 && NothingToMeasure(z, st.coord)
    requires st.kernel.queue.Some? && !ServersStarted(st)
    ensures !RemovalIsHarmless(z, st)
  {
    var after := Next(z, st, FaultActs);
    if after.started {
      var rest := StrandLateServer(z, after);
      assert !AllDone(Run(z, after, rest));
    } else {
      var begun := Next(z, after, CoordinatorActs);
      CoordinatorEffect(z, after);
      var rest := StrandLateServer(z, begun);
      var schedule := [CoordinatorActs] + rest;
      assert schedule[1..] == rest;
      assert Run(z, after, schedule) == Run(z, begun, rest);
    }
  }

  lemma {:induction false} NothingInRun(z: Setup, st: State, schedule: seq<Actor>)
    requires NothingToMeasure(z, st.coord)
    ensures NothingToMeasure(z, Run(z, st, schedule).coord)
    decreases |schedule|
  {
    if schedule != [] {
      if !schedule[0].CoordinatorActs? {
        OthersLeaveCoordinator(z, st, schedule[0]);
      } else if st.started {
        NothingHoldsItUp(z, st);
      } else {
        CoordinatorEffect(z, st);
      }
      hide Next, NothingToMeasure;
      NothingInRun(z, Next(z, st, schedule[0]), schedule[1..]);
    }
  }

  /**
   In any state of any run in which the queue exists, earlier removals included, removing
   it leaves every continuation able to end, with all three programs exited and no queue
   left, if and only if both servers have opened a queue by then and so has the
   coordinator, unless it has nothing to measure.
   */
  lemma RemovalIsHarmlessIff(z: Setup, schedule: seq<Actor>)
    requires Valid(z.p) && Run(z, Start(z), schedule).kernel.queue.Some?
    ensures var st := Run(z, Start(z), schedule);
            RemovalIsHarmless(z, st) <==> ServersStarted(st) && (st.started || N(z) == 0)
  {
    var st := Run(z, Start(z), schedule);
    ReachableInv(z, schedule);
    RunOpened(z, Start(z), schedule);
    if N(z) == 0 {
      NothingInRun(z, Start(z), schedule);
    }
    hide Run, Inv, SomebodyOpened, RemovalIsHarmless, NothingToMeasure;
    if ServersStarted(st) && (st.started || N(z) == 0) {
      HarmlessRemoval(z, st);
    } else if N(z) >= 1 {
      StrandingRemoval(z, st);
    } else {
      StrandingWithNothingToMeasure(z, st);
    }
  }
}
