/**
 Every run ends. How it ends depends on the start-up: once a single measurement is
 scheduled, all three programs exit and the queue is gone, also if somebody
 removes the queue in the middle.
 */
module ProtocolLiveness {
  import opened Wire
  import opened Kernel
  import opened Coordination
  import opened Protocol
  import opened ProtocolSafety

  // -------------------------------------------------------------- measure

  function ServerWork(s: Server): nat {
    match s.pc
    case NotStarted => 4
    case Waiting => 1
    case Busy => 3
    case Acking => 2
    case Stopped => 0
  }

  /** What a waiting message can still cause: an acknowledgement nothing, a command three server steps. */
  function Cost(messages: seq<Message>): nat {
    if messages == [] then 0
    else (if messages[0].mtype == RadioServerTypeAck || messages[0].mtype == SpectrumServerTypeAck then 0 else 3)
         + Cost(messages[1..])
  }

  function QueueWork(k: Kernel): nat {
    if k.queue.None? then 0 else 1 + Cost(k.queue.value)
  }

  function CoordinatorWork(z: Setup, st: State): nat {
    10 * (Work(z.p, st.coord) + if st.started then 0 else 1)
  }

  function Measure(z: Setup, st: State): nat {
    CoordinatorWork(z, st) + ServerWork(st.radio) + ServerWork(st.spectrum) + QueueWork(st.kernel)
  }

  lemma {:induction false} CostConcat(a: seq<Message>, b: seq<Message>)
    ensures Cost(a + b) == Cost(a) + Cost(b)
  {
    if a == [] {
      assert a + b == b;
    } else {
      assert (a + b)[1..] == a[1..] + b;
      CostConcat(a[1..], b);
    }
  }

  lemma SplitAround(messages: seq<Message>, i: nat)
    requires i < |messages|
    ensures messages == messages[..i] + ([messages[i]] + messages[i + 1..])
    ensures Without(messages, i) == messages[..i] + messages[i + 1..]
  {
  }

  lemma CostWithout(messages: seq<Message>, i: nat)
    requires i < |messages|
    ensures Cost(messages) == Cost([messages[i]]) + Cost(Without(messages, i))
  {
    hide Cost, Without;
    var before, m, after := messages[..i], [messages[i]], messages[i + 1..];
    SplitAround(messages, i);
    CostConcat(before, m + after);
    CostConcat(m, after);
    CostConcat(before, after);
  }

  lemma SendCost(k: Kernel, id: nat, m: Message)
    ensures QueueWork(MsgSnd(k, id, m).0) <= QueueWork(k) + Cost([m])
    ensures Cost([m]) == if m.mtype == RadioServerTypeAck || m.mtype == SpectrumServerTypeAck then 0 else 3
  {
    if Exists(k, id) {
      CostConcat(k.queue.value, [m]);
    }
  }

  lemma ReceiveCost(k: Kernel, id: nat, mtype: MessageType, room: nat)
    ensures var (k', r) := MsgRcv(k, id, mtype, room);
            QueueWork(k') + (if r.Received? && (mtype == RadioServerTypeCmd || mtype == SpectrumServerTypeCmd) then 3 else 0)
            <= QueueWork(k)
  {
    if MsgRcv(k, id, mtype, room).1.Received? {
      CostWithout(k.queue.value, FirstOf(k.queue.value, mtype));
    }
  }

  lemma WorkAtEnd(p: Params)
    ensures Work(p, Removing) == 1 && Work(p, Exited) == 0
  {
  }

  lemma CoordinatorDecreases(z: Setup, st: State)
    requires CoordinatorStep(z, st).Some?
    ensures Measure(z, CoordinatorStep(z, st).value) < Measure(z, st)
  {
    hide IfGainText, PowerText, TerminateText, Work;
    if st.started && st.coord.Deciding? {
      WorkDecreases(z.p, st.coord, true);
    } else if st.started && st.coord.Removing? {
      assert Work(z.p, Removing) == 1 && Work(z.p, Exited) == 0 by { WorkAtEnd(z.p); }
    } else if st.started {
      WorkDecreases(z.p, st.coord, CoordinatorStep(z, st).value.oks[|st.oks|]);
      match NextCall(st.coord)
      case Send(mtype, text) => SendCost(st.kernel, st.cid, Message(mtype, text));
      case Receive(mtype) => ReceiveCost(st.kernel, st.cid, mtype, MESSAGE_TEXT_SIZE);
    }
  }

  lemma RadioDecreases(z: Setup, st: State)
    requires RadioStep(z, st).Some?
    ensures Measure(z, RadioStep(z, st).value) < Measure(z, st)
  {
    hide RadioDecode, SpectrumDecode, Work, Cost, FirstOf, Without;
    ReceiveCost(st.kernel, st.radio.id, RadioServerTypeCmd, MESSAGE_TEXT_SIZE);
    SendCost(st.kernel, st.radio.id, Message(RadioServerTypeAck, ""));
    FreshQueueCost(st.kernel);
  }

  lemma SpectrumDecreases(z: Setup, st: State)
    requires SpectrumStep(z, st).Some?
    ensures Measure(z, SpectrumStep(z, st).value) < Measure(z, st)
  {
    hide RadioDecode, SpectrumDecode, Work, Cost, FirstOf, Without;
    ReceiveCost(st.kernel, st.spectrum.id, SpectrumServerTypeCmd, MESSAGE_TEXT_SIZE);
    SendCost(st.kernel, st.spectrum.id, Message(SpectrumServerTypeAck, ""));
    FreshQueueCost(st.kernel);
  }

  lemma FreshQueueCost(k: Kernel)
    ensures QueueWork(MsgGet(k).0) <= QueueWork(k) + 1
  {
  }

  /** Every step of any program, and every removal from outside, lowers one measure of the whole system. */
  lemma StepDecreases(z: Setup, st: State, actor: Actor)
    requires Step(z, st, actor).Some?
    ensures Measure(z, Step(z, st, actor).value) < Measure(z, st)
  {
    match actor
    case CoordinatorActs => CoordinatorDecreases(z, st);
    case RadioActs => RadioDecreases(z, st);
    case SpectrumActs => SpectrumDecreases(z, st);
    case FaultActs =>
  }

  /** How many scheduling decisions of a schedule find their actor able to act. */
  function Effective(z: Setup, st: State, schedule: seq<Actor>): nat
    decreases |schedule|
  {
    if schedule == [] then 0
    else (if Step(z, st, schedule[0]).Some? then 1 else 0) + Effective(z, Next(z, st, schedule[0]), schedule[1..])
  }

  /** No run, however scheduled and disturbed, takes more steps than the measure of its first state. */
  lemma {:induction false} RunsAreBounded(z: Setup, st: State, schedule: seq<Actor>)
    ensures Effective(z, st, schedule) + Measure(z, Run(z, st, schedule)) <= Measure(z, st)
    decreases |schedule|
  {
    hide Step, Measure;
    if schedule != [] {
      RunsAreBounded(z, Next(z, st, schedule[0]), schedule[1..]);
      if Step(z, st, schedule[0]).Some? {
        StepDecreases(z, st, schedule[0]);
      }
    }
  }

  // ------------------------------------------------------ how runs end

  predicate AllStarted(st: State) {
    st.started && !st.radio.pc.NotStarted? && !st.spectrum.pc.NotStarted?
  }

  /** No program can take a step. */
  predicate Quiescent(z: Setup, st: State) {
    CoordinatorStep(z, st).None? && RadioStep(z, st).None? && SpectrumStep(z, st).None?
  }

  predicate AllDone(st: State) {
    st.started && st.coord.Exited? && st.radio.pc.Stopped? && st.spectrum.pc.Stopped? && st.kernel.queue.None?
  }

  /** Whoever removes the queue from outside does so only after all three programs have opened it. */
  predicate FaultsAfterStart(z: Setup, st: State, schedule: seq<Actor>)
    decreases |schedule|
  {
    schedule == [] ||
    (&& (schedule[0].FaultActs? ==> AllStarted(st))
     && FaultsAfterStart(z, Next(z, st, schedule[0]), schedule[1..]))
  }

  predicate NoFaults(schedule: seq<Actor>) {
    forall i :: 0 <= i < |schedule| ==> !schedule[i].FaultActs?
  }

  lemma {:induction false} NoFaultsAfterStart(z: Setup, st: State, schedule: seq<Actor>)
    requires NoFaults(schedule)
    ensures FaultsAfterStart(z, st, schedule)
    decreases |schedule|
  {
    hide Next;
    if schedule != [] {
      NoFaultsAfterStart(z, Next(z, st, schedule[0]), schedule[1..]);
    }
  }

  /** All programs meet on the first queue, and a server stops early only if that queue is gone. */
  predicate Together(st: State) {
    && st.kernel.generation <= 1
    && (st.started ==> st.cid == 1)
    && (!st.radio.pc.NotStarted? ==> st.radio.id == 1)
    && (!st.spectrum.pc.NotStarted? ==> st.spectrum.id == 1)
    && (st.kernel.generation == 1 && st.kernel.queue.None? ==> AllStarted(st))
    && (st.kernel.generation == 0 <==> !st.started && st.radio.pc.NotStarted? && st.spectrum.pc.NotStarted?)
    && (st.kernel.queue.Some? && st.radio.pc.Stopped? ==> st.coord.StoppingSpectrum? || st.coord.Removing?)
    && (st.kernel.queue.Some? && st.spectrum.pc.Stopped? ==> st.coord.Removing?)
    && (st.coord.Exited? ==> st.started && st.kernel.queue.None?)
  }

  /** What a coordinator's step does to the queue's existence, and at the end of its program. */
  lemma CoordinatorEffect(z: Setup, st: State)
    ensures var st' := Next(z, st, CoordinatorActs);
            && st'.radio == st.radio && st'.spectrum == st.spectrum && st'.started
            && (!st.started ==> (st'.kernel, st'.cid) == MsgGet(st.kernel) && st'.coord == st.coord)
            && (st.started ==> st'.cid == st.cid && st'.kernel.generation == st.kernel.generation)
            && (st.started && st.kernel.queue.None? ==> st'.kernel.queue.None?)
            && (st.started && !st.coord.Removing? ==> st'.kernel.queue.Some? == st.kernel.queue.Some?)
            && (st.started && st.coord.Removing? ==> st'.coord.Exited? && st'.kernel == MsgRmid(st.kernel, st.cid))
            && (st.started && st.coord.StoppingSpectrum? ==> st'.coord.Removing?)
            && (st.started && !st.coord.Removing? ==> st'.coord.Exited? == st.coord.Exited?)
  {
    hide IfGainText, PowerText, TerminateText, FirstOf, Without;
  }

  /** A server that starts opens the queue or makes one; otherwise its steps leave the queue's identity and existence alone. */
  predicate Served(k: Kernel, s: Server, k': Kernel, s': Server) {
    if s.pc.NotStarted? then (k', s'.id) == MsgGet(k) && s'.pc.Waiting?
    else
      && s'.id == s.id && !s'.pc.NotStarted?
      && k'.generation == k.generation && k'.queue.Some? == k.queue.Some?
  }

  lemma RadioEffect(z: Setup, st: State)
    ensures var st' := Next(z, st, RadioActs);
            st'.spectrum == st.spectrum && (st' == st || Served(st.kernel, st.radio, st'.kernel, st'.radio))
  {
    hide RadioDecode, FirstOf, Without;
  }

  lemma SpectrumEffect(z: Setup, st: State)
    ensures var st' := Next(z, st, SpectrumActs);
            st'.radio == st.radio && (st' == st || Served(st.kernel, st.spectrum, st'.kernel, st'.spectrum))
  {
    hide SpectrumDecode, FirstOf, Without;
  }

  lemma FaultEffect(z: Setup, st: State)
    ensures var st' := Next(z, st, FaultActs);
            && st'.kernel.generation == st.kernel.generation && st'.kernel.queue.None?
            && st'.radio == st.radio && st'.spectrum == st.spectrum
  {
  }

  /** All three, with what nobody but the coordinator changes. */
  lemma OthersEffect(z: Setup, st: State, actor: Actor)
    requires !actor.CoordinatorActs?
    ensures var st' := Next(z, st, actor);
            && st'.started == st.started && st'.cid == st.cid && st'.coord == st.coord
            && (actor.RadioActs? ==>
                  st'.spectrum == st.spectrum && (st' == st || Served(st.kernel, st.radio, st'.kernel, st'.radio)))
            && (actor.SpectrumActs? ==>
                  st'.radio == st.radio && (st' == st || Served(st.kernel, st.spectrum, st'.kernel, st'.spectrum)))
            && (actor.FaultActs? ==>
                  && st'.kernel.generation == st.kernel.generation && st'.kernel.queue.None?
                  && st'.radio == st.radio && st'.spectrum == st.spectrum)
  {
    OthersLeaveCoordinator(z, st, actor);
    hide Next, Served;
    match actor
    case RadioActs => RadioEffect(z, st);
    case SpectrumActs => SpectrumEffect(z, st);
    case FaultActs => FaultEffect(z, st);
  }

  /** The coordinator does not reach its end before both servers have opened its queue. */
  lemma RemovalComesLast(z: Setup, st: State)
    requires N(z) >= 1 && Inv(z, st) && Alive(st) && st.coord.Removing?
    ensures AllStarted(st)
  {
    hide IfGainText, PowerText, TerminateText, RadioDecode, SpectrumDecode, AtMeasurement, RadioWork, SpectrumWork;
  }

  lemma CoordinatorKeepsTogether(z: Setup, st: State)
    requires Valid(z.p) && N(z) >= 1 && Inv(z, st) && Together(st)
    ensures Together(Next(z, st, CoordinatorActs))
  {
    CoordinatorEffect(z, st);
    if Alive(st) && st.coord.Removing? {
      RemovalComesLast(z, st);
    }
    CoordinatorIsFresh(z, st);
    hide Next, Inv;
  }

  lemma CoordinatorIsFresh(z: Setup, st: State)
    requires Inv(z, st)
    ensures !st.started ==> st.coord.Deciding?
  {
    hide Results, RadioWork, SpectrumWork, Phase;
  }

  /** No command is too long for the receive, so a server that waits never fails while the queue exists. */
  lemma RadioTakesTogether(z: Setup, st: State)
    requires Valid(z.p) && Inv(z, st) && Together(st) && st.radio.pc.Waiting?
    ensures Together(Next(z, st, RadioActs))
  {
    TextsAreShort(0);
    if Alive(st) && st.coord.AwaitingGainAck? {
      GainsAreInts(z.p, |st.log|);
      TextsAreShort(st.coord.ifGain);
    }
    hide IfGainText, PowerText, TerminateText, RadioDecode, SpectrumDecode, AtMeasurement, RadioWork, SpectrumWork, Results;
  }

  lemma RadioWorksTogether(z: Setup, st: State)
    requires Valid(z.p) && Inv(z, st) && Together(st) && st.radio.pc.Busy?
    ensures Together(Next(z, st, RadioActs))
  {
    hide IfGainText, PowerText, TerminateText, RadioDecode, SpectrumDecode, AtMeasurement, SpectrumWork, Take, Acknowledge, Open;
  }

  lemma RadioKeepsTogether(z: Setup, st: State)
    requires Valid(z.p) && Inv(z, st) && Together(st)
    ensures Together(Next(z, st, RadioActs))
  {
    if st.radio.pc.Waiting? {
      RadioTakesTogether(z, st);
    } else if st.radio.pc.Busy? {
      RadioWorksTogether(z, st);
    } else {
      hide RadioDecode, SpectrumDecode, Take, Phase, Results, RadioWork, SpectrumWork;
    }
  }

  lemma SpectrumTakesTogether(z: Setup, st: State)
    requires Valid(z.p) && Inv(z, st) && Together(st) && st.spectrum.pc.Waiting?
    ensures Together(Next(z, st, SpectrumActs))
  {
    TextsAreShort(0);
    if Alive(st) && st.coord.AwaitingPowerAck? {
      TagsAreInts(z.p, z.script, |st.gains| - 1);
      TextsAreShort(st.coord.tag);
    }
    hide IfGainText, PowerText, TerminateText, RadioDecode, SpectrumDecode, AtMeasurement, RadioWork, SpectrumWork, Results;
  }

  lemma SpectrumWorksTogether(z: Setup, st: State)
    requires Valid(z.p) && Inv(z, st) && Together(st) && st.spectrum.pc.Busy?
    ensures Together(Next(z, st, SpectrumActs))
  {
    hide IfGainText, PowerText, TerminateText, RadioDecode, SpectrumDecode, AtMeasurement, RadioWork, Take, Acknowledge, Open;
  }

  lemma SpectrumKeepsTogether(z: Setup, st: State)
    requires Valid(z.p) && Inv(z, st) && Together(st)
    ensures Together(Next(z, st, SpectrumActs))
  {
    if st.spectrum.pc.Waiting? {
      SpectrumTakesTogether(z, st);
    } else if st.spectrum.pc.Busy? {
      SpectrumWorksTogether(z, st);
    } else {
      hide RadioDecode, SpectrumDecode, Take, Phase, Results, RadioWork, SpectrumWork;
    }
  }

  lemma NextKeepsTogether(z: Setup, st: State, actor: Actor)
    requires Valid(z.p) && N(z) >= 1 && Inv(z, st) && Together(st)
    requires actor.FaultActs? ==> AllStarted(st)
    ensures Together(Next(z, st, actor))
  {
    match actor
    case CoordinatorActs => CoordinatorKeepsTogether(z, st);
    case RadioActs => RadioKeepsTogether(z, st);
    case SpectrumActs => SpectrumKeepsTogether(z, st);
    case FaultActs =>
  }

  lemma {:induction false} RunKeepsTogether(z: Setup, st: State, schedule: seq<Actor>)
    requires Valid(z.p) && N(z) >= 1 && Inv(z, st) && Together(st)
    requires FaultsAfterStart(z, st, schedule)
    ensures Inv(z, Run(z, st, schedule)) && Together(Run(z, st, schedule))
    decreases |schedule|
  {
    hide Next, Inv, Together;
    if schedule != [] {
      NextKeeps(z, st, schedule[0]);
      NextKeepsTogether(z, st, schedule[0]);
      RunKeepsTogether(z, Next(z, st, schedule[0]), schedule[1..]);
    }
  }

  lemma QuiescentCoordinator(z: Setup, st: State)
    requires Valid(z.p) && Inv(z, st) && Together(st) && Quiescent(z, st)
    ensures st.started && st.coord.Exited?
  {
    hide IfGainText, PowerText, TerminateText, RadioDecode, SpectrumDecode;
    if st.started && Alive(st) && (st.coord.AwaitingGainAck? || st.coord.AwaitingPowerAck?) {
      if |st.kernel.queue.value| == 1 {
        FirstOfOne(st.kernel.queue.value[0], st.kernel.queue.value[0].mtype);
      }
    }
  }

  /** When nothing can move, everything is over. */
  lemma QuiescentIsDone(z: Setup, st: State)
    requires Valid(z.p) && Inv(z, st) && Together(st) && Quiescent(z, st)
    ensures AllDone(st)
  {
    QuiescentCoordinator(z, st);
    hide RadioDecode, SpectrumDecode;
  }

  /**
   Termination and fault tolerance: with at least one measurement scheduled, in
   either mode, any start-up order and any interleaving, and with the queue removed
   from outside at any moments after the start-up, a run that can go no further has
   all three programs exited and the queue removed. (That it gets there is RunsAreBounded.)
   */
  lemma RunsEndDone(z: Setup, schedule: seq<Actor>)
    requires Valid(z.p) && N(z) >= 1
    requires FaultsAfterStart(z, Start(z), schedule)
    requires Quiescent(z, Run(z, Start(z), schedule))
    ensures AllDone(Run(z, Start(z), schedule))
  {
    StartInv(z);
    RunKeepsTogether(z, Start(z), schedule);
    QuiescentIsDone(z, Run(z, Start(z), schedule));
  }

  /** A removed identifier never comes back: from then on every operation on it fails. */
  lemma {:induction false} RemovedForGood(z: Setup, st: State, schedule: seq<Actor>, id: nat)
    requires id <= st.kernel.generation && !Exists(st.kernel, id)
    ensures var k := Run(z, st, schedule).kernel;
            id <= k.generation && !Exists(k, id)
    ensures forall m: Message :: !MsgSnd(Run(z, st, schedule).kernel, id, m).1
    ensures forall mtype: MessageType, room: nat :: MsgRcv(Run(z, st, schedule).kernel, id, mtype, room).1.Failed?
    decreases |schedule|
  {
    hide RadioDecode, SpectrumDecode, IfGainText, PowerText, TerminateText;
    if schedule != [] {
      RemovedForGood(z, Next(z, st, schedule[0]), schedule[1..], id);
    }
  }

  // ------------------------------------------------ undisturbed runs

  /** Without removals from outside, the coordinator's queue lives until it removes it, with the whole log written. */
  predicate Undisturbed(z: Setup, st: State) {
    && (st.started && !st.coord.Exited? ==> Alive(st))
    && (st.coord.Exited? ==> |st.log| == N(z))
  }

  lemma CoordinatorKeepsUndisturbed(z: Setup, st: State)
    requires Valid(z.p) && Inv(z, st) && Undisturbed(z, st)
    ensures Undisturbed(z, Next(z, st, CoordinatorActs))
  {
    hide RadioDecode, SpectrumDecode, IfGainText, PowerText, TerminateText, RadioWork, SpectrumWork, AtMeasurement;
  }

  lemma ServersKeepUndisturbed(z: Setup, st: State, actor: Actor)
    requires Undisturbed(z, st) && (actor.RadioActs? || actor.SpectrumActs?)
    requires st.coord.Exited? ==> Inv(z, st)
    ensures Undisturbed(z, Next(z, st, actor))
  {
    hide RadioDecode, SpectrumDecode, AtMeasurement, FirstOf, Without;
  }

  lemma NextUndisturbed(z: Setup, st: State, actor: Actor)
    requires Valid(z.p) && Inv(z, st) && Undisturbed(z, st) && !actor.FaultActs?
    ensures Undisturbed(z, Next(z, st, actor))
  {
    hide Inv, Undisturbed, Next;
    if actor.CoordinatorActs? {
      CoordinatorKeepsUndisturbed(z, st);
    } else {
      ServersKeepUndisturbed(z, st, actor);
    }
  }

  lemma {:induction false} RunUndisturbed(z: Setup, st: State, schedule: seq<Actor>)
    requires Valid(z.p) && Inv(z, st) && Undisturbed(z, st) && NoFaults(schedule)
    ensures Undisturbed(z, Run(z, st, schedule))
    decreases |schedule|
  {
    hide Next, Inv, Undisturbed;
    if schedule != [] {
      NextKeeps(z, st, schedule[0]);
      NextUndisturbed(z, st, schedule[0]);
      RunUndisturbed(z, Next(z, st, schedule[0]), schedule[1..]);
    }
  }

  /** An undisturbed run that can go no further has written the sequential program's whole log. */
  lemma UndisturbedRunsComplete(z: Setup, schedule: seq<Actor>)
    requires Valid(z.p) && N(z) >= 1 && NoFaults(schedule)
    requires Quiescent(z, Run(z, Start(z), schedule))
    ensures AllDone(Run(z, Start(z), schedule))
    ensures Run(z, Start(z), schedule).log == SequentialLog(z)
  {
    StartInv(z);
    RunUndisturbed(z, Start(z), schedule);
    NoFaultsAfterStart(z, Start(z), schedule);
    RunsEndDone(z, schedule);
    LogRefinesSimpleLoop(z, schedule);
    SequentialLogClosedForm(z);
  }

  // --------------------------------------------- the exact start-up condition

  /** The coordinator will not command another measurement. */
  predicate NothingToMeasure(z: Setup, c: Coordinator) {
    || (c.Deciding? && Remaining(z.p, c.script, c.tag) == 0)
    || c.StoppingRadio? || c.StoppingSpectrum? || c.Removing? || c.Exited?
  }

  /** Such a coordinator waits for nobody. */
  lemma NothingHoldsItUp(z: Setup, st: State)
    requires st.started && NothingToMeasure(z, st.coord)
    ensures NothingToMeasure(z, Next(z, st, CoordinatorActs).coord)
    ensures !st.coord.Exited? ==>
      CoordinatorStep(z, st).Some? && Work(z.p, Next(z, st, CoordinatorActs).coord) < Work(z.p, st.coord)
  {
    hide IfGainText, PowerText, TerminateText;
    WorkDecreases(z.p, st.coord, true);
  }

  lemma {:induction false} ExitAlone(z: Setup, st: State) returns (schedule: seq<Actor>)
    requires st.started && NothingToMeasure(z, st.coord)
    ensures NoFaults(schedule)
    ensures var end := Run(z, st, schedule);
            end.started && end.coord.Exited? && end.radio == st.radio && end.spectrum == st.spectrum
    decreases Work(z.p, st.coord)
  {
    if st.coord.Exited? {
      schedule := [];
    } else {
      NothingHoldsItUp(z, st);
      CoordinatorEffect(z, st);
      hide Next;
      var rest := ExitAlone(z, Next(z, st, CoordinatorActs));
      schedule := [CoordinatorActs] + rest;
      assert schedule[1..] == rest;
    }
  }

  /** From any state, some schedule runs the programs until none of them can move. */
  lemma {:induction false} RunToTheEnd(z: Setup, st: State) returns (schedule: seq<Actor>)
    ensures NoFaults(schedule) && Quiescent(z, Run(z, st, schedule))
    decreases Measure(z, st)
  {
    if Quiescent(z, st) {
      schedule := [];
    } else {
      var actor :=
        if CoordinatorStep(z, st).Some? then CoordinatorActs
        else if RadioStep(z, st).Some? then RadioActs
        else SpectrumActs;
      assert Step(z, st, actor).Some?;
      hide Quiescent, Step, Measure;
      StepDecreases(z, st, actor);
      var rest := RunToTheEnd(z, Next(z, st, actor));
      schedule := [actor] + rest;
      assert schedule[1..] == rest;
    }
  }

  /** The coordinator has left, and a queue is there or still to be created by a server that comes too late. */
  predicate Abandoned(st: State) {
    st.started && st.coord.Exited? && (st.kernel.queue.Some? || !AllStarted(st))
  }

  lemma NextKeepsAbandoned(z: Setup, st: State, actor: Actor)
    requires Abandoned(st) && !actor.FaultActs?
    ensures Abandoned(Next(z, st, actor))
  {
    if !actor.CoordinatorActs? {
      OthersEffect(z, st, actor);
      hide Next;
    }
  }

  lemma {:induction false} RunKeepsAbandoned(z: Setup, st: State, schedule: seq<Actor>)
    requires Abandoned(st) && NoFaults(schedule)
    ensures Abandoned(Run(z, st, schedule))
    decreases |schedule|
  {
    hide Next, Abandoned;
    if schedule != [] {
      NextKeepsAbandoned(z, st, schedule[0]);
      RunKeepsAbandoned(z, Next(z, st, schedule[0]), schedule[1..]);
    }
  }

  /** A coordinator with nothing to measure can leave before a missing server starts, which then waits for ever. */
  lemma StrandLateServer(z: Setup, st: State) returns (schedule: seq<Actor>)
    requires st.started && NothingToMeasure(z, st.coord) && !AllStarted(st)
    ensures NoFaults(schedule)
    ensures Quiescent(z, Run(z, st, schedule)) && !AllDone(Run(z, st, schedule))
  {
    var first := ExitAlone(z, st);
    var left := Run(z, st, first);
    var rest := RunToTheEnd(z, left);
    RunKeepsAbandoned(z, left, rest);
    RunConcat(z, st, first, rest);
    schedule := first + rest;
  }

  /** Every undisturbed run that can go no further is over. */
  ghost predicate AlwaysEndsDone(z: Setup) {
    forall schedule: seq<Actor> ::
      NoFaults(schedule) && Quiescent(z, Run(z, Start(z), schedule)) ==> AllDone(Run(z, Start(z), schedule))
  }

  /**
   Whole-system termination from every start-up order holds exactly when at least
   one measurement is scheduled. With none, the coordinator can remove the queue
   before a server opens it; the server then makes a queue of its own and waits on
   it for ever.
   */
  lemma AlwaysEndsDoneIff(z: Setup)
    requires Valid(z.p)
    ensures AlwaysEndsDone(z) <==> N(z) >= 1
  {
    if N(z) >= 1 {
      forall schedule: seq<Actor> | NoFaults(schedule) && Quiescent(z, Run(z, Start(z), schedule))
        ensures AllDone(Run(z, Start(z), schedule))
      {
        UndisturbedRunsComplete(z, schedule);
      }
    } else {
      var st := Next(z, Start(z), CoordinatorActs);
      var rest := StrandLateServer(z, st);
      var schedule := [CoordinatorActs] + rest;
      assert schedule[1..] == rest;
      assert Run(z, Start(z), schedule) == Run(z, st, rest);
    }
  }
}
