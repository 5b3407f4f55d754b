/**
 What travels on the queue. Nothing in a message links an acknowledgement to its
 command; that they correspond follows from the order in which messages are sent,
 and that order is the same in every interleaving.
 */
module ProtocolTranscript {
  import opened Common
  import opened CText
  import opened Wire
  import opened Kernel
  import opened Coordination
  import opened Protocol
  import opened ProtocolSafety

  function GainMessage(z: Setup, i: nat): Message {
    Message(RadioServerTypeCmd, IfGainText(GainAt(z.p, i)))
  }

  function PowerMessage(z: Setup, i: nat): Message {
    Message(SpectrumServerTypeCmd, PowerText(TagAt(z.p, z.script, i)))
  }

  const RADIO_ACK := Message(RadioServerTypeAck, "")
  const SPECTRUM_ACK := Message(SpectrumServerTypeAck, "")

  function RadioTerminate(): Message {
    Message(RadioServerTypeCmd, TerminateText())
  }

  function SpectrumTerminate(): Message {
    Message(SpectrumServerTypeCmd, TerminateText())
  }

  function Exchange(z: Setup, i: nat): seq<Message> {
    [GainMessage(z, i), RADIO_ACK, PowerMessage(z, i), SPECTRUM_ACK]
  }

  /** The first n exchanges: each command directly followed by its own acknowledgement. */
  function Exchanges(z: Setup, n: nat): seq<Message> {
    if n == 0 then [] else Exchanges(z, n - 1) + Exchange(z, n - 1)
  }

  function FullTranscript(z: Setup): seq<Message> {
    Exchanges(z, N(z)) + [RadioTerminate(), SpectrumTerminate()]
  }

  predicate Waits(st: State, m: Message) {
    st.kernel.queue == Some([m])
  }

  /** Everything ever put on the coordinator's queue, for each place the coordinator can be. */
  predicate SentSoFar(z: Setup, st: State) {
    var sent := st.kernel.sent;
    match st.coord
    case Deciding(_, _, _) => sent == Exchanges(z, |st.log|)
    case SendingGain(_, _, _) => sent == Exchanges(z, |st.log|)
    case AwaitingGainAck(_, _, _) =>
      sent == Exchanges(z, |st.log|) + Exchange(z, |st.log|)[..if Waits(st, RADIO_ACK) then 2 else 1]
    case SendingPower(_, _, _) => sent == Exchanges(z, |st.log|) + Exchange(z, |st.log|)[..2]
    case AwaitingPowerAck(_, _, _) =>
      |st.gains| >= 1 &&
      sent == Exchanges(z, |st.gains| - 1) + Exchange(z, |st.gains| - 1)[..if Waits(st, SPECTRUM_ACK) then 4 else 3]
    case StoppingRadio => sent == Exchanges(z, N(z))
    case StoppingSpectrum => sent == Exchanges(z, N(z)) + [RadioTerminate()]
    case Removing => sent == Exchanges(z, N(z)) || sent == FullTranscript(z)
    case Exited => true
  }

  predicate BeforeStop(c: Coordinator) {
    !c.StoppingSpectrum? && !c.Removing? && !c.Exited?
  }

  ghost predicate TranscriptInv(z: Setup, st: State) {
    && (Alive(st) ==> SentSoFar(z, st))
    && (Alive(st) && BeforeStop(st.coord) ==> st.kernel.taken + st.kernel.queue.value == st.kernel.sent)
    && (st.kernel.queue.Some? && !Alive(st) ==> st.kernel.sent == st.kernel.taken == [])
  }

  lemma CoordinatorExtendsSilently(z: Setup, st: State)
    requires Valid(z.p) && Inv(z, st) && TranscriptInv(z, st)
    requires st.started ==> !Calling(st.coord)
    ensures TranscriptInv(z, Next(z, st, CoordinatorActs))
  {
    hide IfGainText, PowerText, TerminateText, RadioDecode, SpectrumDecode;
  }

  lemma Appended(a: seq<Message>, b: seq<Message>, i: nat)
    requires i < |b|
    ensures (a + b[..i]) + [b[i]] == a + b[..i + 1]
  {
  }

  lemma CoordinatorExtendsWithGain(z: Setup, st: State)
    requires Valid(z.p) && Inv(z, st) && TranscriptInv(z, st)
    requires st.started && st.coord.SendingGain?
    ensures TranscriptInv(z, Next(z, st, CoordinatorActs))
  {
    hide IfGainText, PowerText, TerminateText, RadioDecode, SpectrumDecode, AtMeasurement, Results, RadioWork, SpectrumWork;
    if Alive(st) {
      var i, m := |st.log|, GainMessage(z, |st.log|);
      assert Exchange(z, i)[..1] == [m];
      assert [] + [m] == [m];
      assert st.kernel.taken + [m] == (st.kernel.taken + []) + [m];
    }
  }

  lemma CoordinatorExtendsWithPower(z: Setup, st: State)
    requires Valid(z.p) && Inv(z, st) && TranscriptInv(z, st)
    requires st.started && st.coord.SendingPower?
    ensures TranscriptInv(z, Next(z, st, CoordinatorActs))
  {
    hide IfGainText, PowerText, TerminateText, RadioDecode, SpectrumDecode, AtMeasurement, Results, RadioWork, SpectrumWork;
    if Alive(st) {
      var i, m := |st.log|, PowerMessage(z, |st.log|);
      Appended(Exchanges(z, i), Exchange(z, i), 2);
      assert [] + [m] == [m];
      assert st.kernel.taken + [m] == (st.kernel.taken + []) + [m];
    }
  }

  lemma CoordinatorExtendsByStopping(z: Setup, st: State)
    requires Valid(z.p) && Inv(z, st) && TranscriptInv(z, st)
    requires st.started && (st.coord.StoppingRadio? || st.coord.StoppingSpectrum?)
    ensures TranscriptInv(z, Next(z, st, CoordinatorActs))
  {
    hide IfGainText, PowerText, TerminateText, RadioDecode, SpectrumDecode;
  }

  lemma CoordinatorTakesAck(z: Setup, st: State)
    requires Valid(z.p) && Inv(z, st) && TranscriptInv(z, st)
    requires st.started && (st.coord.AwaitingGainAck? || st.coord.AwaitingPowerAck?)
    ensures TranscriptInv(z, Next(z, st, CoordinatorActs))
  {
    hide IfGainText, PowerText, TerminateText, RadioDecode, SpectrumDecode;
    if Alive(st) && |st.kernel.queue.value| == 1 {
      var m := st.kernel.queue.value[0];
      FirstOfOne(m, NextCall(st.coord).mtype);
      assert st.kernel.queue.value == [m];
      assert (st.kernel.taken + [m]) + [] == st.kernel.taken + [m];
      if st.coord.AwaitingPowerAck? {
        assert Exchange(z, |st.gains| - 1)[..4] == Exchange(z, |st.gains| - 1);
      }
    }
  }

  /** A server that takes the one waiting message moves it from the queue to what is taken. */
  lemma TakesTheOne(k: Kernel, id: nat, mtype: MessageType, room: nat)
    requires Exists(k, id) && |k.queue.value| <= 1
    requires k.taken + k.queue.value == k.sent
    ensures var k' := MsgRcv(k, id, mtype, room).0; k'.queue.Some? && k'.taken + k'.queue.value == k'.sent == k.sent
  {
    if |k.queue.value| == 1 {
      var m := k.queue.value[0];
      assert k.queue.value == [m];
      FirstOfOne(m, mtype);
      assert (k.taken + [m]) + [] == k.taken + [m];
    }
  }

  /** A server's receive never puts or takes an acknowledgement, and where nothing is taken nothing changes. */
  lemma CommandTaken(k: Kernel, id: nat, mtype: MessageType, room: nat)
    requires mtype == RadioServerTypeCmd || mtype == SpectrumServerTypeCmd
    ensures var k' := MsgRcv(k, id, mtype, room).0;
            && k'.sent == k.sent && k'.generation == k.generation && k'.queue.Some? == k.queue.Some?
            && (!Exists(k, id) || k.queue == Some([]) ==> k' == k)
            && (k.queue.Some? && |k.queue.value| <= 1 ==>
                  && (k'.queue == Some([RADIO_ACK]) <==> k.queue == Some([RADIO_ACK]))
                  && (k'.queue == Some([SPECTRUM_ACK]) <==> k.queue == Some([SPECTRUM_ACK])))
  {
    if Exists(k, id) && |k.queue.value| == 1 {
      assert k.queue.value == [k.queue.value[0]];
      FirstOfOne(k.queue.value[0], mtype);
    }
  }

  lemma OneMessageWaits(z: Setup, st: State)
    requires Inv(z, st) && Alive(st) && BeforeStop(st.coord)
    ensures |st.kernel.queue.value| <= 1
  {
    hide RadioDecode, SpectrumDecode, AtMeasurement, Results, RadioWork, SpectrumWork;
  }

  /** Only the kernel differs, and possibly a server. */
  predicate SameDeeds(st: State, st': State) {
    && st'.started == st.started && st'.cid == st.cid && st'.coord == st.coord
    && st'.gains == st.gains && st'.log == st.log
  }

  lemma SentIsKept(z: Setup, st: State, st': State)
    requires SameDeeds(st, st') && SentSoFar(z, st) && st'.kernel.sent == st.kernel.sent
    requires BeforeStop(st.coord) ==>
      && (Waits(st', RADIO_ACK) <==> Waits(st, RADIO_ACK))
      && (Waits(st', SPECTRUM_ACK) <==> Waits(st, SPECTRUM_ACK))
    ensures SentSoFar(z, st')
  {
    hide Exchanges, Exchange, Waits;
  }

  lemma TakingExtends(z: Setup, st: State, st': State, id: nat, mtype: MessageType)
    requires Inv(z, st) && TranscriptInv(z, st) && SameDeeds(st, st')
    requires mtype == RadioServerTypeCmd || mtype == SpectrumServerTypeCmd
    requires st'.kernel == MsgRcv(st.kernel, id, mtype, MESSAGE_TEXT_SIZE).0
    ensures TranscriptInv(z, st')
  {
    CommandTaken(st.kernel, id, mtype, MESSAGE_TEXT_SIZE);
    ForeignQueueIsEmpty(z, st);
    if Alive(st) {
      if BeforeStop(st.coord) {
        OneMessageWaits(z, st);
        if id == st.cid {
          TakesTheOne(st.kernel, st.cid, mtype, MESSAGE_TEXT_SIZE);
        }
      }
      hide Inv, SentSoFar, MsgRcv;
      SentIsKept(z, st, st');
    }
    hide Inv, SentSoFar, MsgRcv;
  }

  lemma ForeignQueueIsEmpty(z: Setup, st: State)
    requires Inv(z, st)
    ensures st.kernel.queue.Some? && !Alive(st) ==> st.kernel.queue == Some([])
  {
    hide Phase, Results, RadioWork, SpectrumWork;
  }

  lemma RadioTaking(z: Setup, st: State)
    requires st.radio.pc.Waiting?
    ensures var st' := Next(z, st, RadioActs);
            && st'.kernel == MsgRcv(st.kernel, st.radio.id, RadioServerTypeCmd, MESSAGE_TEXT_SIZE).0
            && SameDeeds(st, st')
  {
    hide MsgRcv, Overwrite;
  }

  lemma RadioExtendsByTaking(z: Setup, st: State)
    requires Valid(z.p) && Inv(z, st) && TranscriptInv(z, st) && st.radio.pc.Waiting?
    ensures TranscriptInv(z, Next(z, st, RadioActs))
  {
    RadioTaking(z, st);
    hide Inv, TranscriptInv, SameDeeds, Next, MsgRcv;
    TakingExtends(z, st, Next(z, st, RadioActs), st.radio.id, RadioServerTypeCmd);
  }

  lemma RadioExtendsByAck(z: Setup, st: State)
    requires Valid(z.p) && Inv(z, st) && TranscriptInv(z, st) && st.radio.pc.Acking?
    ensures TranscriptInv(z, Next(z, st, RadioActs))
  {
    hide IfGainText, PowerText, TerminateText, RadioDecode, SpectrumDecode, Exchanges, SpectrumWork, AtMeasurement;
    if Alive(st) {
      Appended(Exchanges(z, |st.log|), Exchange(z, |st.log|), 1);
      assert [] + [RADIO_ACK] == [RADIO_ACK];
      assert st.kernel.taken + [RADIO_ACK] == (st.kernel.taken + []) + [RADIO_ACK];
    }
  }

  lemma SpectrumTaking(z: Setup, st: State)
    requires st.spectrum.pc.Waiting?
    ensures var st' := Next(z, st, SpectrumActs);
            && st'.kernel == MsgRcv(st.kernel, st.spectrum.id, SpectrumServerTypeCmd, MESSAGE_TEXT_SIZE).0
            && SameDeeds(st, st')
  {
    hide MsgRcv, Overwrite;
  }

  lemma SpectrumExtendsByTaking(z: Setup, st: State)
    requires Valid(z.p) && Inv(z, st) && TranscriptInv(z, st) && st.spectrum.pc.Waiting?
    ensures TranscriptInv(z, Next(z, st, SpectrumActs))
  {
    SpectrumTaking(z, st);
    hide Inv, TranscriptInv, SameDeeds, Next, MsgRcv;
    TakingExtends(z, st, Next(z, st, SpectrumActs), st.spectrum.id, SpectrumServerTypeCmd);
  }

  lemma SpectrumExtendsByAck(z: Setup, st: State)
    requires Valid(z.p) && Inv(z, st) && TranscriptInv(z, st) && st.spectrum.pc.Acking?
    ensures TranscriptInv(z, Next(z, st, SpectrumActs))
  {
    hide IfGainText, PowerText, TerminateText, RadioDecode, SpectrumDecode, AtMeasurement, RadioWork, Exchanges, RadioWork;
    if Alive(st) {
      Appended(Exchanges(z, |st.gains| - 1), Exchange(z, |st.gains| - 1), 3);
      assert [] + [SPECTRUM_ACK] == [SPECTRUM_ACK];
      assert st.kernel.taken + [SPECTRUM_ACK] == (st.kernel.taken + []) + [SPECTRUM_ACK];
    }
  }

  /** A server that opens the queue or carries out a command leaves what was sent alone. */
  lemma RadioExtendsOtherwise(z: Setup, st: State)
    requires Inv(z, st) && TranscriptInv(z, st)
    requires !st.radio.pc.Waiting? && !st.radio.pc.Acking?
    ensures TranscriptInv(z, Next(z, st, RadioActs))
  {
    hide RadioDecode, SpectrumDecode, Exchanges, Exchange, AtMeasurement, SpectrumWork, Take, Acknowledge;
  }

  lemma SpectrumExtendsOtherwise(z: Setup, st: State)
    requires Inv(z, st) && TranscriptInv(z, st)
    requires !st.spectrum.pc.Waiting? && !st.spectrum.pc.Acking?
    ensures TranscriptInv(z, Next(z, st, SpectrumActs))
  {
    hide RadioDecode, SpectrumDecode, Exchanges, Exchange, AtMeasurement, RadioWork, Take, Acknowledge;
  }

  lemma NextExtends(z: Setup, st: State, actor: Actor)
    requires Valid(z.p) && Inv(z, st) && TranscriptInv(z, st)
    ensures TranscriptInv(z, Next(z, st, actor))
  {
    match actor
    case CoordinatorActs =>
      if !st.started || !Calling(st.coord) {
        CoordinatorExtendsSilently(z, st);
      } else if st.coord.SendingGain? {
        CoordinatorExtendsWithGain(z, st);
      } else if st.coord.SendingPower? {
        CoordinatorExtendsWithPower(z, st);
      } else if st.coord.AwaitingGainAck? || st.coord.AwaitingPowerAck? {
        CoordinatorTakesAck(z, st);
      } else {
        CoordinatorExtendsByStopping(z, st);
      }
    case RadioActs =>
      if st.radio.pc.Waiting? {
        RadioExtendsByTaking(z, st);
      } else if st.radio.pc.Acking? {
        RadioExtendsByAck(z, st);
      } else {
        RadioExtendsOtherwise(z, st);
      }
    case SpectrumActs =>
      if st.spectrum.pc.Waiting? {
        SpectrumExtendsByTaking(z, st);
      } else if st.spectrum.pc.Acking? {
        SpectrumExtendsByAck(z, st);
      } else {
        SpectrumExtendsOtherwise(z, st);
      }
    case FaultActs =>
  }

  lemma {:induction false} RunExtends(z: Setup, st: State, schedule: seq<Actor>)
    requires Valid(z.p) && Inv(z, st) && TranscriptInv(z, st)
    ensures TranscriptInv(z, Run(z, st, schedule))
    decreases |schedule|
  {
    if schedule != [] {
      NextKeeps(z, st, schedule[0]);
      NextExtends(z, st, schedule[0]);
      RunExtends(z, Next(z, st, schedule[0]), schedule[1..]);
    }
  }

  lemma {:induction false} ExchangesGrow(z: Setup, i: nat, n: nat)
    requires i <= n
    ensures |Exchanges(z, n)| == 4 * n
    ensures Exchanges(z, i) <= Exchanges(z, n)
    ensures i < n ==> Exchanges(z, i) + Exchange(z, i) <= Exchanges(z, n)
  {
    hide IfGainText, PowerText;
    if i < n {
      ExchangesGrow(z, i, n - 1);
    } else if n > 0 {
      ExchangesGrow(z, n - 1, n - 1);
    }
  }

  lemma PartOfTranscript(z: Setup, i: nat, part: nat)
    requires i < N(z) && part <= 4
    ensures Exchanges(z, i) + Exchange(z, i)[..part] <= FullTranscript(z)
  {
    ExchangesGrow(z, i, N(z));
    assert Exchanges(z, i) + Exchange(z, i)[..part] <= Exchanges(z, i) + Exchange(z, i);
  }

  lemma SentIsPrefix(z: Setup, st: State)
    requires Inv(z, st) && TranscriptInv(z, st) && Alive(st)
    ensures st.kernel.sent <= FullTranscript(z)
  {
    hide IfGainText, PowerText, TerminateText, RadioDecode, SpectrumDecode;
    ExchangesGrow(z, |st.log|, N(z));
    match st.coord
    case AwaitingGainAck(_, _, _) => PartOfTranscript(z, |st.log|, if Waits(st, RADIO_ACK) then 2 else 1);
    case SendingPower(_, _, _) => PartOfTranscript(z, |st.log|, 2);
    case AwaitingPowerAck(_, _, _) => PartOfTranscript(z, |st.gains| - 1, if Waits(st, SPECTRUM_ACK) then 4 else 3);
    case _ =>
  }

  /**
   In every interleaving, what has been put on the coordinator's queue is a prefix of
   one fixed transcript, and until the first terminate command what has been taken
   off is that prefix again or all but its last message.
   */
  lemma TranscriptIsSequential(z: Setup, schedule: seq<Actor>)
    requires Valid(z.p)
    ensures var st := Run(z, Start(z), schedule);
            Alive(st) ==> st.kernel.sent <= FullTranscript(z)
    ensures var st := Run(z, Start(z), schedule);
            Alive(st) && BeforeStop(st.coord) ==>
              st.kernel.taken <= st.kernel.sent && |st.kernel.sent| <= |st.kernel.taken| + 1
  {
    hide IfGainText, PowerText, TerminateText, RadioDecode, SpectrumDecode;
    var st := Run(z, Start(z), schedule);
    ReachableInv(z, schedule);
    StartInv(z);
    RunExtends(z, Start(z), schedule);
    if Alive(st) {
      SentIsPrefix(z, st);
    }
    StopAndWait(z, schedule);
  }

  lemma {:induction false} ExchangeAt(z: Setup, n: nat, i: nat)
    requires i < n
    ensures |Exchanges(z, n)| == 4 * n
    ensures Exchanges(z, n)[4 * i] == GainMessage(z, i)
    ensures Exchanges(z, n)[4 * i + 1] == RADIO_ACK
    ensures Exchanges(z, n)[4 * i + 2] == PowerMessage(z, i)
    ensures Exchanges(z, n)[4 * i + 3] == SPECTRUM_ACK
  {
    hide IfGainText, PowerText, TerminateText;
    ExchangesGrow(z, n, n);
    ExchangesGrow(z, n - 1, n - 1);
    if i < n - 1 {
      ExchangeAt(z, n - 1, i);
    }
  }

  lemma PartLength(z: Setup, i: nat)
    ensures |Exchange(z, i)| == 4 && |Exchanges(z, i)| == 4 * i
  {
    ExchangesGrow(z, i, i);
  }

  /** An acknowledgement is put on the queue only when what it acknowledges is done. */
  lemma DeedsBeforeAcks(z: Setup, st: State, i: nat)
    requires Inv(z, st) && TranscriptInv(z, st) && Alive(st) && i < N(z)
    ensures 4 * i + 1 < |st.kernel.sent| ==> i < |st.gains|
    ensures 4 * i + 3 < |st.kernel.sent| ==> i < |st.log|
  {
    hide IfGainText, PowerText, TerminateText, RadioDecode, SpectrumDecode, AtMeasurement, Exchanges, Exchange;
    PartLength(z, |st.log|);
    PartLength(z, N(z));
    if |st.gains| >= 1 {
      PartLength(z, |st.gains| - 1);
    }
  }

  /**
   The k-th acknowledgement answers the k-th command, although nothing in it says so: of all
   that any interleaving has put on the coordinator's queue, message 4i is the gain command
   of measurement i, message 4i + 1 the radio server's acknowledgement, put there only after
   that gain was given to the radio; message 4i + 2 is the power command of measurement i, and
   message 4i + 3 the spectrum server's acknowledgement, put there only after that measurement.
   */
  lemma AcksAnswerCommands(z: Setup, schedule: seq<Actor>, i: nat)
    requires Valid(z.p) && i < N(z)
    ensures var st := Run(z, Start(z), schedule);
            Alive(st) ==>
              && var sent := st.kernel.sent;
                 && (4 * i < |sent| ==> sent[4 * i] == GainMessage(z, i))
                 && (4 * i + 1 < |sent| ==> sent[4 * i + 1] == RADIO_ACK && i < |st.gains| && st.gains[i] == GainAt(z.p, i))
                 && (4 * i + 2 < |sent| ==> sent[4 * i + 2] == PowerMessage(z, i))
                 && (4 * i + 3 < |sent| ==> sent[4 * i + 3] == SPECTRUM_ACK && i < |st.log| && st.log[i] == Scheduled(z, i))
  {
    var st := Run(z, Start(z), schedule);
    ReachableInv(z, schedule);
    StartInv(z);
    RunExtends(z, Start(z), schedule);
    hide Run, Start, IfGainText, PowerText, TerminateText, RadioWork, SpectrumWork, Exchanges, SentSoFar, Phase,
      GainMessage, PowerMessage;
    if Alive(st) {
      SentIsPrefix(z, st);
      ExchangeAt(z, N(z), i);
      DeedsBeforeAcks(z, st, i);
    }
  }

  // -------------------------------------------------------- conservation

  lemma NextConserves(z: Setup, st: State, actor: Actor)
    requires Conserved(st.kernel)
    ensures Conserved(Next(z, st, actor).kernel)
  {
    hide IfGainText, PowerText, TerminateText, RadioDecode, SpectrumDecode;
    match actor
    case CoordinatorActs =>
      if st.started && Calling(st.coord) {
        match NextCall(st.coord)
        case Send(mtype, text) => SendConserves(st.kernel, st.cid, Message(mtype, text));
        case Receive(mtype) => ReceiveConserves(st.kernel, st.cid, mtype, MESSAGE_TEXT_SIZE);
        case Remove =>
      }
    case RadioActs =>
      ReceiveConserves(st.kernel, st.radio.id, RadioServerTypeCmd, MESSAGE_TEXT_SIZE);
      SendConserves(st.kernel, st.radio.id, RADIO_ACK);
    case SpectrumActs =>
      ReceiveConserves(st.kernel, st.spectrum.id, SpectrumServerTypeCmd, MESSAGE_TEXT_SIZE);
      SendConserves(st.kernel, st.spectrum.id, SPECTRUM_ACK);
    case FaultActs =>
  }

  /** Over every run, per type: messages sent are messages taken followed by messages waiting. */
  lemma {:induction false} RunConserves(z: Setup, st: State, schedule: seq<Actor>)
    requires Conserved(st.kernel)
    ensures Conserved(Run(z, st, schedule).kernel)
    decreases |schedule|
  {
    if schedule != [] {
      NextConserves(z, st, schedule[0]);
      RunConserves(z, Next(z, st, schedule[0]), schedule[1..]);
    }
  }

  // ------------------------------------------------- the program in the run

  lemma CallFollowsProgram(z: Setup, st: State, ok: bool, more: seq<bool>)
    requires Calling(st.coord)
    ensures Trace(z.p, st.coord, [ok] + more) == [NextCall(st.coord)] + Trace(z.p, Resume(z.p, st.coord, ok), more)
  {
    hide NextCall, Resume;
    assert Tail([ok] + more) == more;
  }

  lemma Extended<T>(a: seq<T>, b: seq<T>, more: seq<T>)
    ensures (a + b)[|a|..] == b && [] + more == more
  {
  }

  lemma NextFollowsProgram(z: Setup, st: State, actor: Actor, more: seq<bool>)
    ensures var st' := Next(z, st, actor);
            && st.oks <= st'.oks && st.calls <= st'.calls
            && Trace(z.p, st.coord, st'.oks[|st.oks|..] + more)
               == st'.calls[|st.calls|..] + Trace(z.p, st'.coord, more)
  {
    var st' := Next(z, st, actor);
    if actor.CoordinatorActs? {
      CoordinatorStepShape(z, st);
    } else {
      OthersLeaveCoordinator(z, st, actor);
    }
    hide Next, NextCall, Resume, Decide;
    var oks, calls := st'.oks[|st.oks|..], st'.calls[|st.calls|..];
    Extended(st.oks, oks, more);
    Extended(st.calls, calls, Trace(z.p, st'.coord, more));
    if |oks| == 1 {
      hide Trace;
      CallFollowsProgram(z, st, oks[0], more);
      assert oks == [oks[0]] && calls == [NextCall(st.coord)];
    } else if |calls| == 1 {
      assert oks == [] && calls == [Remove];
    } else {
      assert oks == [] && calls == [];
    }
  }

  lemma SuffixesJoin<T>(a: seq<T>, b: seq<T>, c: seq<T>, more: seq<T>)
    requires a <= b <= c
    ensures c[|a|..] + more == b[|a|..] + (c[|b|..] + more)
  {
  }

  /**
   The coordinator inside the concurrent system is the coordinator program: from any
   point of any run, its calls so far and to come are the program's calls given the
   answers so far and to come.
   */
  lemma {:induction false} RunFollowsProgram(z: Setup, st: State, schedule: seq<Actor>, more: seq<bool>)
    ensures var st' := Run(z, st, schedule);
            && st.oks <= st'.oks && st.calls <= st'.calls
            && Trace(z.p, st.coord, st'.oks[|st.oks|..] + more)
               == st'.calls[|st.calls|..] + Trace(z.p, st'.coord, more)
    decreases |schedule|
  {
    hide Next, Trace;
    if schedule == [] {
      assert st.oks[|st.oks|..] == [] && st.calls[|st.calls|..] == [];
      assert [] + more == more;
      assert [] + Trace(z.p, st.coord, more) == Trace(z.p, st.coord, more);
    } else {
      var mid := Next(z, st, schedule[0]);
      var end := Run(z, mid, schedule[1..]);
      RunFollowsProgram(z, mid, schedule[1..], more);
      NextFollowsProgram(z, st, schedule[0], end.oks[|mid.oks|..] + more);
      SuffixesJoin(st.oks, mid.oks, end.oks, more);
      SuffixesJoin(st.calls, mid.calls, end.calls, Trace(z.p, end.coord, more));
    }
  }

  /** Once the coordinator has exited, its calls are those of the program run on the answers it got. */
  lemma CompletedRunIsProgram(z: Setup, schedule: seq<Actor>)
    ensures var st := Run(z, Start(z), schedule);
            st.coord.Exited? ==> st.calls == Trace(z.p, Initial(z.p, z.script), st.oks)
  {
    hide Next, IfGainText, PowerText, TerminateText;
    RunFollowsProgram(z, Start(z), schedule, []);
    var st := Run(z, Start(z), schedule);
    assert st.oks[0..] + [] == st.oks;
    assert st.calls[0..] + [] == st.calls;
  }
}
