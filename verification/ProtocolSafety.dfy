/**
 What holds in every reachable state: the measurements taken are a prefix of the
 sequential schedule, each at the gain it was scheduled for.
 */
module ProtocolSafety {
  import opened Common
  import opened Wire
  import opened Kernel
  import opened Coordination
  import opened Protocol

  /** The i-th line that a sequential program would write. */
  function Scheduled(z: Setup, i: nat): Measurement {
    Measurement(GainAt(z.p, i), TagAt(z.p, z.script, i), z.bandwidth)
  }

  function N(z: Setup): nat {
    Total(z.p, z.script)
  }

  predicate Alive(st: State) {
    st.started && Exists(st.kernel, st.cid)
  }

  predicate Quiet(s: Server) {
    s.pc.NotStarted? || s.pc.Waiting? || s.pc.Stopped?
  }

  /** The server has opened the coordinator's queue. */
  predicate Attached(st: State, s: Server) {
    st.started && !s.pc.NotStarted? && s.id == st.cid
  }

  predicate Identities(z: Setup, st: State) {
    && (if st.started then 1 <= st.cid <= st.kernel.generation else st.cid == 0 && st.coord == Initial(z.p, z.script))
    && (!st.radio.pc.NotStarted? ==> 1 <= st.radio.id <= st.kernel.generation)
    && (!st.spectrum.pc.NotStarted? ==> 1 <= st.spectrum.id <= st.kernel.generation)
    && (st.kernel.queue.Some? ==> st.kernel.generation >= 1)
    && (st.kernel.queue.Some? && !Alive(st) ==> st.kernel.queue == Some([]))
  }

  predicate Results(z: Setup, st: State) {
    && |st.log| <= |st.gains| <= |st.log| + 1
    && |st.gains| <= N(z)
    && (forall j :: 0 <= j < |st.log| ==> st.log[j] == Scheduled(z, j))
    && (forall j :: 0 <= j < |st.gains| ==> st.gains[j] == GainAt(z.p, j))
    && st.bandwidth == z.bandwidth
    && (|st.gains| > 0 ==> Attached(st, st.radio))
    && (|st.log| > 0 ==> Attached(st, st.spectrum))
  }

  /** What the radio server can be busy with, wherever the coordinator is. */
  predicate RadioWork(z: Setup, st: State) {
    && (st.radio.pc.Busy? || st.radio.pc.Acking? ==> Attached(st, st.radio))
    && (st.radio.pc.Busy? ==>
          || RadioDecode(st.radio.buffer) == StopRadio
          || (&& RadioDecode(st.radio.buffer) == SetIfGain(GainAt(z.p, |st.gains|))
              && |st.gains| == |st.log| < N(z)
              && !st.spectrum.pc.Busy?))
  }

  predicate SpectrumWork(z: Setup, st: State) {
    && (st.spectrum.pc.Busy? || st.spectrum.pc.Acking? ==> Attached(st, st.spectrum))
    && (st.spectrum.pc.Busy? ==>
          || SpectrumDecode(st.spectrum.buffer, st.bandwidth, z.scanner) == (StopSpectrum, st.bandwidth)
          || (&& SpectrumDecode(st.spectrum.buffer, st.bandwidth, z.scanner)
                 == (ComputePower(TagAt(z.p, z.script, |st.log|)), st.bandwidth)
              && |st.gains| == |st.log| + 1
              && !st.radio.pc.Busy?))
  }

  // -------------------------------------------------------------- phases

  /** Inside measurement i, before the gain phase is over. */
  predicate InGainPhase(z: Setup, c: Coordinator, i: nat) {
    && (c.SendingGain? || c.AwaitingGainAck?)
    && i < N(z) && c.tag == TagAt(z.p, z.script, i) && c.ifGain == GainAt(z.p, i)
    && AtMeasurement(z.p, z.script, AfterPower(z.p, AfterGain(z.p, c), true), i + 1)
  }

  predicate InPowerPhase(z: Setup, c: Coordinator, i: nat) {
    && (c.SendingPower? || c.AwaitingPowerAck?)
    && i < N(z) && c.tag == TagAt(z.p, z.script, i)
    && AtMeasurement(z.p, z.script, AfterPower(z.p, c, true), i + 1)
  }

  predicate Idle(st: State) {
    st.kernel.queue == Some([]) && Quiet(st.radio) && Quiet(st.spectrum)
  }

  /** The one command of a gain phase: queued, in work, done, or acknowledged. */
  predicate GainTravels(st: State, ifGain: int) {
    && Quiet(st.spectrum)
    && (|| (st.kernel.queue == Some([Message(RadioServerTypeCmd, IfGainText(ifGain))])
            && Quiet(st.radio) && |st.gains| == |st.log|)
        || (st.kernel.queue == Some([]) && st.radio.pc.Busy?
            && RadioDecode(st.radio.buffer) == SetIfGain(ifGain) && |st.gains| == |st.log|)
        || (st.kernel.queue == Some([]) && st.radio.pc.Acking? && |st.gains| == |st.log| + 1)
        || (st.kernel.queue == Some([Message(RadioServerTypeAck, "")])
            && Quiet(st.radio) && |st.gains| == |st.log| + 1))
  }

  predicate PowerTravels(z: Setup, st: State, tag: int) {
    && Quiet(st.radio)
    && (|| (st.kernel.queue == Some([Message(SpectrumServerTypeCmd, PowerText(tag))])
            && Quiet(st.spectrum) && |st.gains| == |st.log| + 1)
        || (st.kernel.queue == Some([]) && st.spectrum.pc.Busy?
            && SpectrumDecode(st.spectrum.buffer, st.bandwidth, z.scanner) == (ComputePower(tag), st.bandwidth)
            && |st.gains| == |st.log| + 1)
        || (st.kernel.queue == Some([]) && st.spectrum.pc.Acking? && |st.gains| == |st.log|)
        || (st.kernel.queue == Some([Message(SpectrumServerTypeAck, "")])
            && Quiet(st.spectrum) && |st.gains| == |st.log|))
  }

  predicate IsTerminate(m: Message) {
    (m.mtype == RadioServerTypeCmd || m.mtype == SpectrumServerTypeCmd) && m.mtext == TerminateText()
  }

  /** After the first terminate command: only terminate commands are queued or in work. */
  predicate Draining(z: Setup, st: State) {
    && st.kernel.queue.Some?
    && !st.radio.pc.Acking? && !st.spectrum.pc.Acking?
    && (st.radio.pc.Busy? ==> RadioDecode(st.radio.buffer) == StopRadio)
    && (st.spectrum.pc.Busy? ==>
          SpectrumDecode(st.spectrum.buffer, st.bandwidth, z.scanner) == (StopSpectrum, st.bandwidth))
    && (forall j :: 0 <= j < |st.kernel.queue.value| ==> IsTerminate(st.kernel.queue.value[j]))
  }

  /** Where things are while the coordinator's queue exists. */
  predicate Phase(z: Setup, st: State) {
    var c := st.coord;
    match c
    case Deciding(_, _, _) => Idle(st) && |st.gains| == |st.log| && AtMeasurement(z.p, z.script, c, |st.log|)
    case SendingGain(_, _, _) => Idle(st) && |st.gains| == |st.log| && InGainPhase(z, c, |st.log|)
    case AwaitingGainAck(_, _, ifGain) => GainTravels(st, ifGain) && InGainPhase(z, c, |st.log|)
    case SendingPower(_, _, _) => Idle(st) && |st.gains| == |st.log| + 1 && InPowerPhase(z, c, |st.log|)
    case AwaitingPowerAck(_, tag, _) => PowerTravels(z, st, tag) && |st.gains| >= 1 && InPowerPhase(z, c, |st.gains| - 1)
    case StoppingRadio => Idle(st) && |st.gains| == |st.log| == N(z)
    case StoppingSpectrum =>
      && Draining(z, st) && |st.gains| == |st.log| == N(z)
      && Quiet(st.spectrum) && |st.kernel.queue.value| <= 1
      && (forall j :: 0 <= j < |st.kernel.queue.value| ==> st.kernel.queue.value[j].mtype == RadioServerTypeCmd)
    case Removing => Draining(z, st) && |st.gains| == |st.log| == N(z) && |st.kernel.queue.value| <= 2
    case Exited => false
  }

  ghost predicate Inv(z: Setup, st: State) {
    && Identities(z, st)
    && Results(z, st)
    && RadioWork(z, st)
    && SpectrumWork(z, st)
    && (Alive(st) ==> Phase(z, st))
  }

  // ---------------------------------------------------------- preservation

  lemma StartInv(z: Setup)
    requires Valid(z.p)
    ensures Inv(z, Start(z))
  {
  }

  lemma FirstOfOne(m: Message, mtype: MessageType)
    ensures FirstOf([m], mtype) == if m.mtype == mtype then 0 else 1
    ensures Without([m], 0) == []
  {
  }

  lemma CoordinatorOpens(z: Setup, st: State)
    requires Valid(z.p) && Inv(z, st) && !st.started
    ensures Inv(z, Next(z, st, CoordinatorActs))
  {
  }

  lemma CoordinatorDecides(z: Setup, st: State)
    requires Valid(z.p) && Inv(z, st) && st.started && st.coord.Deciding?
    ensures Inv(z, Next(z, st, CoordinatorActs))
  {
    if Alive(st) && Decide(z.p, st.coord).SendingGain? {
      RoundAdvances(z.p, z.script, st.coord, |st.log|);
    }
  }

  lemma CoordinatorSendsGain(z: Setup, st: State)
    requires Valid(z.p) && Inv(z, st) && st.started && st.coord.SendingGain?
    ensures Inv(z, Next(z, st, CoordinatorActs))
  {
    hide IfGainText, PowerText, TerminateText, RadioDecode, SpectrumDecode;
    if Alive(st) {
      var m := Message(RadioServerTypeCmd, IfGainText(st.coord.ifGain));
      assert [] + [m] == [m];
    }
  }

  lemma CoordinatorSendsPower(z: Setup, st: State)
    requires Valid(z.p) && Inv(z, st) && st.started && st.coord.SendingPower?
    ensures Inv(z, Next(z, st, CoordinatorActs))
  {
    hide IfGainText, PowerText, TerminateText, RadioDecode, SpectrumDecode;
    if Alive(st) {
      var m := Message(SpectrumServerTypeCmd, PowerText(st.coord.tag));
      assert [] + [m] == [m];
    }
  }

  lemma CoordinatorSendsTerminate(z: Setup, st: State)
    requires Valid(z.p) && Inv(z, st) && st.started
    requires st.coord.StoppingRadio? || st.coord.StoppingSpectrum?
    ensures Inv(z, Next(z, st, CoordinatorActs))
  {
  }

  /** A coordinator whose queue is gone goes on, and nothing else changes. */
  lemma CoordinatorAwaitsInVain(z: Setup, st: State)
    requires Valid(z.p) && Inv(z, st) && st.started && !Alive(st)
    requires st.coord.AwaitingGainAck? || st.coord.AwaitingPowerAck?
    ensures Inv(z, Next(z, st, CoordinatorActs))
  {
    hide RadioDecode, SpectrumDecode, AtMeasurement, Phase;
  }

  lemma CoordinatorAwaitsGain(z: Setup, st: State)
    requires Valid(z.p) && Inv(z, st) && Alive(st) && st.coord.AwaitingGainAck?
    ensures Inv(z, Next(z, st, CoordinatorActs))
  {
    hide RadioDecode, SpectrumDecode, IfGainText, AtMeasurement;
    if |st.kernel.queue.value| == 1 {
      FirstOfOne(st.kernel.queue.value[0], RadioServerTypeAck);
    }
  }

  lemma CoordinatorAwaitsPower(z: Setup, st: State)
    requires Valid(z.p) && Inv(z, st) && Alive(st) && st.coord.AwaitingPowerAck?
    ensures Inv(z, Next(z, st, CoordinatorActs))
  {
    hide RadioDecode, SpectrumDecode, PowerText;
    if |st.kernel.queue.value| == 1 {
      FirstOfOne(st.kernel.queue.value[0], SpectrumServerTypeAck);
    }
  }

  lemma CoordinatorAwaits(z: Setup, st: State)
    requires Valid(z.p) && Inv(z, st) && st.started
    requires st.coord.AwaitingGainAck? || st.coord.AwaitingPowerAck?
    ensures Inv(z, Next(z, st, CoordinatorActs))
  {
    hide Inv, Next;
    if !Alive(st) {
      CoordinatorAwaitsInVain(z, st);
    } else if st.coord.AwaitingGainAck? {
      CoordinatorAwaitsGain(z, st);
    } else {
      CoordinatorAwaitsPower(z, st);
    }
  }

  lemma CoordinatorLeaves(z: Setup, st: State)
    requires Valid(z.p) && Inv(z, st) && st.started
    requires st.coord.Removing? || st.coord.Exited?
    ensures Inv(z, Next(z, st, CoordinatorActs))
  {
    hide RadioDecode, SpectrumDecode, Phase;
  }

  lemma CoordinatorKeeps(z: Setup, st: State)
    requires Valid(z.p) && Inv(z, st)
    ensures Inv(z, Next(z, st, CoordinatorActs))
  {
    if !st.started {
      CoordinatorOpens(z, st);
    } else {
      match st.coord
      case Deciding(_, _, _) => CoordinatorDecides(z, st);
      case SendingGain(_, _, _) => CoordinatorSendsGain(z, st);
      case AwaitingGainAck(_, _, _) => CoordinatorAwaits(z, st);
      case SendingPower(_, _, _) => CoordinatorSendsPower(z, st);
      case AwaitingPowerAck(_, _, _) => CoordinatorAwaits(z, st);
      case StoppingRadio => CoordinatorSendsTerminate(z, st);
      case StoppingSpectrum => CoordinatorSendsTerminate(z, st);
      case Removing => CoordinatorLeaves(z, st);
      case Exited => CoordinatorLeaves(z, st);
    }
  }

  lemma FaultKeeps(z: Setup, st: State)
    requires Valid(z.p) && Inv(z, st)
    ensures Inv(z, Next(z, st, FaultActs))
  {
  }

  lemma RadioOpens(z: Setup, st: State)
    requires Valid(z.p) && Inv(z, st) && st.radio.pc.NotStarted?
    ensures Inv(z, Next(z, st, RadioActs))
  {
  }

  /** A server on a queue that the coordinator does not use finds it gone or empty. */
  lemma RadioTakesElsewhere(z: Setup, st: State)
    requires Valid(z.p) && Inv(z, st) && st.radio.pc.Waiting?
    requires !Alive(st) || st.radio.id != st.cid
    ensures Inv(z, Next(z, st, RadioActs))
  {
    hide IfGainText, PowerText, TerminateText, RadioDecode, SpectrumDecode, AtMeasurement, GainAt, TagAt;
  }

  lemma RadioTakesCommand(z: Setup, st: State)
    requires Valid(z.p) && Inv(z, st) && st.radio.pc.Waiting? && Alive(st) && st.radio.id == st.cid
    ensures Inv(z, Next(z, st, RadioActs))
  {
    hide IfGainText, PowerText, TerminateText, RadioDecode, SpectrumDecode, AtMeasurement, GainAt, TagAt;
    TerminateRoundTrip(st.radio.buffer, st.bandwidth, z.scanner);
    if st.coord.AwaitingGainAck? {
      GainsAreInts(z.p, |st.log|);
      IfGainRoundTrip(st.radio.buffer, st.coord.ifGain);
      if |st.kernel.queue.value| == 1 {
        FirstOfOne(st.kernel.queue.value[0], RadioServerTypeCmd);
      }
    }
  }

  lemma RadioTakes(z: Setup, st: State)
    requires Valid(z.p) && Inv(z, st) && st.radio.pc.Waiting?
    ensures Inv(z, Next(z, st, RadioActs))
  {
    hide Inv, Next;
    if Alive(st) && st.radio.id == st.cid {
      RadioTakesCommand(z, st);
    } else {
      RadioTakesElsewhere(z, st);
    }
  }

  lemma RadioWorks(z: Setup, st: State)
    requires Valid(z.p) && Inv(z, st) && st.radio.pc.Busy?
    ensures Inv(z, Next(z, st, RadioActs))
  {
    hide IfGainText, PowerText, TerminateText, RadioDecode, SpectrumDecode;
  }

  lemma RadioAcknowledges(z: Setup, st: State)
    requires Valid(z.p) && Inv(z, st) && st.radio.pc.Acking?
    ensures Inv(z, Next(z, st, RadioActs))
  {
    hide IfGainText, PowerText, TerminateText, RadioDecode, SpectrumDecode;
    if Alive(st) {
      var m := Message(RadioServerTypeAck, "");
      assert [] + [m] == [m];
    }
  }

  lemma SpectrumOpens(z: Setup, st: State)
    requires Valid(z.p) && Inv(z, st) && st.spectrum.pc.NotStarted?
    ensures Inv(z, Next(z, st, SpectrumActs))
  {
  }

  lemma SpectrumTakesElsewhere(z: Setup, st: State)
    requires Valid(z.p) && Inv(z, st) && st.spectrum.pc.Waiting?
    requires !Alive(st) || st.spectrum.id != st.cid
    ensures Inv(z, Next(z, st, SpectrumActs))
  {
    hide IfGainText, PowerText, TerminateText, RadioDecode, SpectrumDecode, AtMeasurement, GainAt, TagAt;
  }

  lemma SpectrumTakesCommand(z: Setup, st: State)
    requires Valid(z.p) && Inv(z, st) && st.spectrum.pc.Waiting? && Alive(st) && st.spectrum.id == st.cid
    ensures Inv(z, Next(z, st, SpectrumActs))
  {
    hide IfGainText, PowerText, TerminateText, RadioDecode, SpectrumDecode, AtMeasurement, GainAt, TagAt;
    TerminateRoundTrip(st.spectrum.buffer, st.bandwidth, z.scanner);
    if st.coord.AwaitingPowerAck? {
      TagsAreInts(z.p, z.script, |st.gains| - 1);
      PowerRoundTrip(st.spectrum.buffer, st.coord.tag, st.bandwidth, z.scanner);
      if |st.kernel.queue.value| == 1 {
        FirstOfOne(st.kernel.queue.value[0], SpectrumServerTypeCmd);
      }
    }
  }

  lemma SpectrumTakes(z: Setup, st: State)
    requires Valid(z.p) && Inv(z, st) && st.spectrum.pc.Waiting?
    ensures Inv(z, Next(z, st, SpectrumActs))
  {
    hide Inv, Next;
    if Alive(st) && st.spectrum.id == st.cid {
      SpectrumTakesCommand(z, st);
    } else {
      SpectrumTakesElsewhere(z, st);
    }
  }

  lemma SpectrumWorks(z: Setup, st: State)
    requires Valid(z.p) && Inv(z, st) && st.spectrum.pc.Busy?
    ensures Inv(z, Next(z, st, SpectrumActs))
  {
    hide IfGainText, PowerText, TerminateText, RadioDecode, SpectrumDecode;
  }

  lemma SpectrumAcknowledges(z: Setup, st: State)
    requires Valid(z.p) && Inv(z, st) && st.spectrum.pc.Acking?
    ensures Inv(z, Next(z, st, SpectrumActs))
  {
    hide IfGainText, PowerText, TerminateText, RadioDecode, SpectrumDecode;
    if Alive(st) {
      var m := Message(SpectrumServerTypeAck, "");
      assert [] + [m] == [m];
    }
  }

  lemma RadioKeeps(z: Setup, st: State)
    requires Valid(z.p) && Inv(z, st)
    ensures Inv(z, Next(z, st, RadioActs))
  {
    match st.radio.pc
    case NotStarted => RadioOpens(z, st);
    case Waiting => RadioTakes(z, st);
    case Busy => RadioWorks(z, st);
    case Acking => RadioAcknowledges(z, st);
    case Stopped =>
  }

  lemma SpectrumKeeps(z: Setup, st: State)
    requires Valid(z.p) && Inv(z, st)
    ensures Inv(z, Next(z, st, SpectrumActs))
  {
    match st.spectrum.pc
    case NotStarted => SpectrumOpens(z, st);
    case Waiting => SpectrumTakes(z, st);
    case Busy => SpectrumWorks(z, st);
    case Acking => SpectrumAcknowledges(z, st);
    case Stopped =>
  }

  lemma NextKeeps(z: Setup, st: State, actor: Actor)
    requires Valid(z.p) && Inv(z, st)
    ensures Inv(z, Next(z, st, actor))
  {
    match actor
    case CoordinatorActs => CoordinatorKeeps(z, st);
    case RadioActs => RadioKeeps(z, st);
    case SpectrumActs => SpectrumKeeps(z, st);
    case FaultActs => FaultKeeps(z, st);
  }

  lemma {:induction false} RunKeeps(z: Setup, st: State, schedule: seq<Actor>)
    requires Valid(z.p) && Inv(z, st)
    ensures Inv(z, Run(z, st, schedule))
    decreases |schedule|
  {
    if schedule != [] {
      NextKeeps(z, st, schedule[0]);
      RunKeeps(z, Next(z, st, schedule[0]), schedule[1..]);
    }
  }

  /** Every state that any interleaving reaches satisfies the invariant. */
  lemma ReachableInv(z: Setup, schedule: seq<Actor>)
    requires Valid(z.p)
    ensures Inv(z, Run(z, Start(z), schedule))
  {
    StartInv(z);
    RunKeeps(z, Start(z), schedule);
  }

  // ------------------------------------------------------ refinement

  /**
   The measurements of a sequential program: the coordinator's loop with each
   measurement made in place, no queue and no other process.
   */
  function SimpleLoop(z: Setup, c: Coordinator): seq<Measurement>
    decreases Work(z.p, c)
  {
    WorkDecreases(z.p, c, true);
    if !c.Deciding? then []
    else
      var next := Decide(z.p, c);
      if next.Deciding? then SimpleLoop(z, next)
      else if next.SendingGain? then
        [Measurement(c.ifGain, c.tag, z.bandwidth)] + SimpleLoop(z, AfterPower(z.p, AfterGain(z.p, next), true))
      else []
  }

  function SequentialLog(z: Setup): seq<Measurement> {
    SimpleLoop(z, Initial(z.p, z.script))
  }

  lemma {:induction false} SimpleLoopIsScheduled(z: Setup, c: Coordinator, i: nat)
    requires AtMeasurement(z.p, z.script, c, i)
    ensures |SimpleLoop(z, c)| == N(z) - i
    ensures forall j :: 0 <= j < N(z) - i ==> SimpleLoop(z, c)[j] == Scheduled(z, i + j)
    decreases Work(z.p, c)
  {
    WorkDecreases(z.p, c, true);
    var next := Decide(z.p, c);
    if next.Deciding? {
      SimpleLoopIsScheduled(z, next, i);
    } else if next.SendingGain? {
      RoundAdvances(z.p, z.script, c, i);
      var after := AfterPower(z.p, AfterGain(z.p, next), true);
      SimpleLoopIsScheduled(z, after, i + 1);
      var rest := SimpleLoop(z, after);
      var whole := SimpleLoop(z, c);
      assert whole == [Scheduled(z, i)] + rest;
      forall j | 0 <= j < N(z) - i ensures whole[j] == Scheduled(z, i + j) {
        if j > 0 {
          assert whole[j] == rest[j - 1] == Scheduled(z, i + 1 + (j - 1));
        }
      }
    }
  }

  /** The sequential program's log in closed form: gains and tags both count round their ranges. */
  lemma SequentialLogClosedForm(z: Setup)
    ensures |SequentialLog(z)| == N(z)
    ensures forall i :: 0 <= i < N(z) ==> SequentialLog(z)[i] == Scheduled(z, i)
  {
    SimpleLoopIsScheduled(z, Initial(z.p, z.script), 0);
  }

  /**
   In every interleaving, in either mode, in any start-up order and with the queue
   removed from outside at any moments, the log is a prefix of what the sequential
   program writes: each tag in its turn, measured while the radio's gain in effect
   is exactly the scheduled one, and with the bandwidth the run started with.
   */
  lemma LogRefinesSimpleLoop(z: Setup, schedule: seq<Actor>)
    requires Valid(z.p)
    ensures Run(z, Start(z), schedule).log <= SequentialLog(z)
    ensures Run(z, Start(z), schedule).bandwidth == z.bandwidth
  {
    ReachableInv(z, schedule);
    SequentialLogClosedForm(z);
  }

  /** The gains commanded to the radio are the scheduled ones, at most one ahead of the log. */
  lemma GainsFollowSchedule(z: Setup, schedule: seq<Actor>)
    requires Valid(z.p)
    ensures var st := Run(z, Start(z), schedule);
            && |st.log| <= |st.gains| <= |st.log| + 1
            && |st.gains| <= |SequentialLog(z)|
            && forall i :: 0 <= i < |st.gains| ==> st.gains[i] == SequentialLog(z)[i].ifGain
  {
    ReachableInv(z, schedule);
    SequentialLogClosedForm(z);
  }

  /** Start-up order: once a measurement is made, all three programs are on one queue identifier. */
  lemma MeasuringMeansOneQueue(z: Setup, schedule: seq<Actor>)
    requires Valid(z.p)
    ensures var st := Run(z, Start(z), schedule);
            |st.log| > 0 ==>
              Attached(st, st.radio) && Attached(st, st.spectrum) && st.radio.id == st.spectrum.id == st.cid
  {
    ReachableInv(z, schedule);
  }

  // --------------------------------------------------- stop and wait

  function Processing(s: Server): nat {
    if s.pc.Busy? || s.pc.Acking? then 1 else 0
  }

  function InFlight(st: State): nat
    requires st.kernel.queue.Some?
  {
    |st.kernel.queue.value| + Processing(st.radio) + Processing(st.spectrum)
  }

  /**
   While the coordinator's queue exists and no terminate command is sent, queued
   messages and commands in processing number at most one together. The queue
   never holds more than two messages, so msgsnd never waits for room. When the
   coordinator removes the queue itself, no server is inside a gain or power command
   or has an acknowledgement outstanding.
   */
  lemma StopAndWait(z: Setup, schedule: seq<Actor>)
    requires Valid(z.p)
    ensures var st := Run(z, Start(z), schedule);
            Alive(st) && !st.coord.StoppingSpectrum? && !st.coord.Removing? ==> InFlight(st) <= 1
    ensures var st := Run(z, Start(z), schedule);
            Alive(st) ==> |st.kernel.queue.value| <= 2
    ensures var st := Run(z, Start(z), schedule);
            Alive(st) && st.coord.Removing? ==>
              && !st.radio.pc.Acking? && !st.spectrum.pc.Acking?
              && (st.radio.pc.Busy? ==> RadioDecode(st.radio.buffer) == StopRadio)
              && (st.spectrum.pc.Busy? ==>
                    SpectrumDecode(st.spectrum.buffer, st.bandwidth, z.scanner).0 == StopSpectrum)
  {
    hide IfGainText, PowerText, TerminateText, RadioDecode, SpectrumDecode;
    ReachableInv(z, schedule);
  }
}
