/**
 The processes inside the concurrent system are the programs: what they have done in a
 run and can still do is what the programs do with the answers they got.
 */
module ProtocolServers {
  import opened Common
  import opened CText
  import opened Wire
  import opened Kernel
  import opened Coordination
  import opened QueuePort
  import opened ServerSession
  import opened RadioStream
  import opened CoordinatorProgram
  import opened RadioServerProgram
  import opened SpectrumServerProgram
  import opened Protocol
  import opened ProtocolSafety
  import Transcript = ProtocolTranscript

  // ----------------------------------------------------------- radio server

  /** What the radio server program still gives to the radio, from a point of its loop and given the answers to come. */
  function RadioToCome(s: Server, more: seq<Answer>): string
    requires Deliverable(more)
  {
    match s.pc
    case NotStarted => RadioOutput(Decoded(more, s.buffer))
    case Waiting => RadioOutput(Decoded(more, s.buffer))
    case Busy => RadioText(s.buffer) + if Stops(s.buffer) then "" else RadioAfterAck(s.buffer, more)
    case Acking => RadioAfterAck(s.buffer, more)
    case Stopped => ""
  }

  function RadioAfterAck(buffer: QueueBuffer, more: seq<Answer>): string
    requires Deliverable(more)
  {
    if First(more).ok then RadioOutput(Decoded(Rest(more), buffer)) else ""
  }

  lemma RestOfOne(a: Answer, more: seq<Answer>)
    ensures First([a] + more) == a && Rest([a] + more) == more
  {
  }

  /** Receiving one text splits a session into this decoding and what follows it. */
  lemma OutputAfterReceive(s: Server, text: string, more: seq<Answer>)
    requires Deliverable(more) && |text| <= MESSAGE_TEXT_SIZE
    ensures Deliverable([Answer(true, text)] + more)
    ensures RadioOutput(Decoded([Answer(true, text)] + more, s.buffer))
         == RadioToCome(s.(pc := Busy, buffer := Overwrite(s.buffer, text)), more)
  {
    hide Stops, RadioText, Overwrite;
    RestOfOne(Answer(true, text), more);
    var contents := Overwrite(s.buffer, text);
    OutputOfNext("", contents, Decoded(Rest(more), contents));
    assert "" + RadioText(contents) == RadioText(contents);
  }

  /**
   From s to s', with the gains growing from `gains` to `gains'`, the radio server has given
   the radio exactly the commands of the new gains, as its program does with these answers.
   */
  ghost predicate RadioAdvances(s: Server, s': Server, gains: seq<int>, gains': seq<int>, more: seq<Answer>)
    requires Deliverable(more)
  {
    && s.answers <= s'.answers && gains <= gains'
    && Deliverable(s'.answers[|s.answers|..] + more)
    && RadioToCome(s, s'.answers[|s.answers|..] + more) == GainStream(gains'[|gains|..]) + RadioToCome(s', more)
  }

  lemma RadioGetsAnswer(s: Server, s': Server, answer: Answer, gains: seq<int>, more: seq<Answer>)
    requires Deliverable(more) && |answer.text| <= MESSAGE_TEXT_SIZE
    requires s'.answers == s.answers + [answer]
    requires Deliverable([answer] + more) ==> RadioToCome(s, [answer] + more) == RadioToCome(s', more)
    ensures RadioAdvances(s, s', gains, gains, more)
  {
    hide RadioToCome;
    assert s'.answers[|s.answers|..] == [answer];
    assert gains[|gains|..] == [];
    assert "" + RadioToCome(s', more) == RadioToCome(s', more);
  }

  lemma RadioGetsNoAnswer(s: Server, s': Server, gains: seq<int>, gains': seq<int>, more: seq<Answer>)
    requires Deliverable(more) && s'.answers == s.answers && gains <= gains'
    requires RadioToCome(s, more) == GainStream(gains'[|gains|..]) + RadioToCome(s', more)
    ensures RadioAdvances(s, s', gains, gains', more)
  {
    hide RadioToCome, GainStream;
    assert s'.answers[|s.answers|..] == [];
    assert [] + more == more;
  }

  lemma RadioIdles(s: Server, s': Server, gains: seq<int>, more: seq<Answer>)
    requires Deliverable(more) && s'.answers == s.answers
    requires RadioToCome(s, more) == RadioToCome(s', more)
    ensures RadioAdvances(s, s', gains, gains, more)
  {
    hide RadioToCome;
    assert gains[|gains|..] == [];
    assert "" + RadioToCome(s', more) == RadioToCome(s', more);
    RadioGetsNoAnswer(s, s', gains, gains, more);
  }

  lemma RadioTakesNext(z: Setup, st: State, more: seq<Answer>)
    requires Deliverable(more) && st.radio.pc.Waiting?
    ensures var st' := Next(z, st, RadioActs); RadioAdvances(st.radio, st'.radio, st.gains, st'.gains, more)
  {
    hide RadioDecode, Stops, RadioText, RadioAdvances, Overwrite;
    var s := st.radio;
    match MsgRcv(st.kernel, s.id, RadioServerTypeCmd, MESSAGE_TEXT_SIZE).1
    case Blocked =>
      RadioIdles(s, s, st.gains, more);
    case Failed =>
      var s' := s.(pc := Stopped, answers := s.answers + [Answer(false, "")]);
      RestOfOne(Answer(false, ""), more);
      RadioGetsAnswer(s, s', Answer(false, ""), st.gains, more);
    case Received(text) =>
      var s' := s.(pc := Busy, buffer := Overwrite(s.buffer, text), answers := s.answers + [Answer(true, text)]);
      OutputAfterReceive(s, text, more);
      RadioGetsAnswer(s, s', Answer(true, text), st.gains, more);
  }

  lemma RadioAcksNext(z: Setup, st: State, more: seq<Answer>)
    requires Deliverable(more) && st.radio.pc.Acking?
    ensures var st' := Next(z, st, RadioActs); RadioAdvances(st.radio, st'.radio, st.gains, st'.gains, more)
  {
    hide RadioDecode, Stops, RadioText, RadioAdvances;
    var s := st.radio;
    var ok := MsgSnd(st.kernel, s.id, Message(RadioServerTypeAck, "")).1;
    RestOfOne(Answer(ok, ""), more);
    RadioGetsAnswer(s, Next(z, st, RadioActs).radio, Answer(ok, ""), st.gains, more);
  }

  lemma OneGain(ifGain: int)
    ensures GainStream([ifGain]) == GainCommand(ifGain)
  {
    hide GainCommand;
    assert [ifGain][1..] == [];
    assert GainCommand(ifGain) + "" == GainCommand(ifGain);
  }

  lemma TextOfNothing(contents: string)
    requires RadioDecode(contents) == NoRadioAction
    ensures RadioText(contents) == ""
  {
  }

  /** Carrying out what is in the receive buffer is the program's next piece of output. */
  lemma RadioCarriesOut(s: Server, more: seq<Answer>)
    requires Deliverable(more) && s.pc.Busy?
    ensures match RadioDecode(s.buffer)
            case StopRadio => RadioToCome(s, more) == ""
            case SetIfGain(ifGain) => RadioToCome(s, more) == GainCommand(ifGain) + RadioAfterAck(s.buffer, more)
            case NoRadioAction => RadioToCome(s, more) == RadioAfterAck(s.buffer, more)
  {
    hide RadioDecode, Stops, GainCommand, RadioAfterAck, RadioOutput, Decoded, RadioText, Deliverable;
    StopsIsTerminate(s.buffer, 0.0, _ => None);
    match RadioDecode(s.buffer)
    case StopRadio => TextOfStop(s.buffer);
    case SetIfGain(ifGain) => TextOfGain(s.buffer, ifGain);
    case NoRadioAction =>
      TextOfNothing(s.buffer);
      assert "" + RadioAfterAck(s.buffer, more) == RadioAfterAck(s.buffer, more);
  }

  lemma OneMoreGain(gains: seq<int>, ifGain: int)
    ensures GainStream((gains + [ifGain])[|gains|..]) == GainCommand(ifGain)
  {
    hide GainCommand, GainStream;
    assert (gains + [ifGain])[|gains|..] == [ifGain];
    OneGain(ifGain);
  }

  lemma RadioWorksNext(z: Setup, st: State, more: seq<Answer>)
    requires Deliverable(more) && st.radio.pc.Busy?
    ensures var st' := Next(z, st, RadioActs); RadioAdvances(st.radio, st'.radio, st.gains, st'.gains, more)
  {
    hide RadioDecode, Stops, RadioAdvances, GainCommand, GainStream, RadioAfterAck, RadioText, Deliverable;
    var s, st' := st.radio, Next(z, st, RadioActs);
    RadioCarriesOut(s, more);
    match RadioDecode(s.buffer)
    case StopRadio =>
      RadioIdles(s, st'.radio, st.gains, more);
    case SetIfGain(ifGain) =>
      OneMoreGain(st.gains, ifGain);
      RadioGetsNoAnswer(s, st'.radio, st.gains, st'.gains, more);
    case NoRadioAction =>
      RadioIdles(s, st'.radio, st.gains, more);
  }

  /** Every other step leaves the radio server, or at most lets it open the queue. */
  lemma RadioRestsNext(z: Setup, st: State, actor: Actor)
    requires actor.RadioActs? ==> st.radio.pc.NotStarted? || st.radio.pc.Stopped?
    ensures var st' := Next(z, st, actor);
            && st'.gains == st.gains
            && st'.radio.buffer == st.radio.buffer && st'.radio.answers == st.radio.answers
            && (st'.radio.pc == st.radio.pc || (st.radio.pc.NotStarted? && st'.radio.pc.Waiting?))
  {
    hide RadioDecode, SpectrumDecode, NextCall, MsgSnd, MsgRcv, Resume, Decide;
  }

  lemma RadioNext(z: Setup, st: State, actor: Actor, more: seq<Answer>)
    requires Deliverable(more)
    ensures var st' := Next(z, st, actor); RadioAdvances(st.radio, st'.radio, st.gains, st'.gains, more)
  {
    hide Next, RadioAdvances, RadioAfterAck, RadioText, RadioOutput, Decoded, Stops, Deliverable;
    if actor.RadioActs? && st.radio.pc.Waiting? {
      RadioTakesNext(z, st, more);
    } else if actor.RadioActs? && st.radio.pc.Busy? {
      RadioWorksNext(z, st, more);
    } else if actor.RadioActs? && st.radio.pc.Acking? {
      RadioAcksNext(z, st, more);
    } else {
      RadioRestsNext(z, st, actor);
      RadioIdles(st.radio, Next(z, st, actor).radio, st.gains, more);
    }
  }

  lemma {:induction false} GainStreamOfConcat(a: seq<int>, b: seq<int>)
    ensures GainStream(a + b) == GainStream(a) + GainStream(b)
  {
    hide GainCommand;
    if a == [] {
      assert a + b == b;
    } else {
      assert (a + b)[1..] == a[1..] + b;
      GainStreamOfConcat(a[1..], b);
    }
  }

  lemma Suffixes<T>(a: seq<T>, b: seq<T>, c: seq<T>)
    requires a <= b <= c
    ensures c[|a|..] == b[|a|..] + c[|b|..]
  {
  }

  lemma RadioAdvancesJoin(s: Server, m: Server, e: Server, gs: seq<int>, gm: seq<int>, ge: seq<int>, more: seq<Answer>)
    requires Deliverable(more) && RadioAdvances(m, e, gm, ge, more)
    requires RadioAdvances(s, m, gs, gm, e.answers[|m.answers|..] + more)
    ensures RadioAdvances(s, e, gs, ge, more)
  {
    hide RadioToCome, GainStream, Deliverable;
    Transcript.SuffixesJoin(s.answers, m.answers, e.answers, more);
    Suffixes(gs, gm, ge);
    GainStreamOfConcat(gm[|gs|..], ge[|gm|..]);
  }

  lemma {:induction false} RunAdvancesRadio(z: Setup, st: State, schedule: seq<Actor>, more: seq<Answer>)
    requires Deliverable(more)
    ensures var st' := Run(z, st, schedule); RadioAdvances(st.radio, st'.radio, st.gains, st'.gains, more)
    decreases |schedule|
  {
    if schedule == [] {
      hide RadioAdvances;
      RadioIdles(st.radio, st.radio, st.gains, more);
    } else {
      var mid := Next(z, st, schedule[0]);
      var end := Run(z, mid, schedule[1..]);
      RunAdvancesRadio(z, mid, schedule[1..], more);
      assert Deliverable(end.radio.answers[|mid.radio.answers|..] + more);
      hide Next, RadioAdvances, Deliverable;
      RadioNext(z, st, schedule[0], end.radio.answers[|mid.radio.answers|..] + more);
      RadioAdvancesJoin(st.radio, mid.radio, end.radio, st.gains, mid.gains, end.gains, more);
    }
  }

  /** With no answer to come, only a command already received is still to be given to the radio. */
  lemma RadioLeft(s: Server)
    ensures RadioToCome(s, []) == if s.pc.Busy? then RadioText(s.buffer) else ""
  {
    hide RadioText, Stops;
    assert RadioText(s.buffer) + "" == RadioText(s.buffer);
  }

  /**
   In every state of every run: what the radio server's program gives the radio, on the
   answers that the run has given it so far, is the gain commands counted in the state,
   and if it is about to carry out a command, the text of that one command more.
   */
  lemma RadioRunIsProgram(z: Setup, schedule: seq<Actor>)
    ensures var st := Run(z, Start(z), schedule);
            && Deliverable(st.radio.answers)
            && RadioOutput(Decoded(st.radio.answers, z.radioBuffer))
               == GainStream(st.gains) + if st.radio.pc.Busy? then RadioText(st.radio.buffer) else ""
  {
    hide Next, RadioOutput, Decoded, GainStream, RadioText;
    var st := Run(z, Start(z), schedule);
    RunAdvancesRadio(z, Start(z), schedule, []);
    RadioLeft(st.radio);
    assert st.radio.answers[0..] + [] == st.radio.answers;
    assert st.gains[0..] == st.gains;
  }

  // -------------------------------------------------------- spectrum server

  function RunsOf(log: seq<Measurement>): seq<PipelineRun> {
    seq(|log|, i requires 0 <= i < |log| => PipelineRun(log[i].tag, log[i].bandwidth))
  }

  /** What the spectrum server program still runs, from a point of its loop and given the answers to come. */
  function RunsToCome(z: Setup, s: Server, bandwidth: real, more: seq<Answer>): seq<PipelineRun>
    requires Deliverable(more)
  {
    match s.pc
    case NotStarted => PipelineRuns(Decoded(more, s.buffer), bandwidth, z.scanner)
    case Waiting => PipelineRuns(Decoded(more, s.buffer), bandwidth, z.scanner)
    case Busy =>
      var (command, b) := SpectrumDecode(s.buffer, bandwidth, z.scanner);
      RunOf(command, b) + if Stops(s.buffer) then [] else RunsAfterAck(z, s.buffer, b, more)
    case Acking => RunsAfterAck(z, s.buffer, bandwidth, more)
    case Stopped => []
  }

  function RunsAfterAck(z: Setup, buffer: QueueBuffer, bandwidth: real, more: seq<Answer>): seq<PipelineRun>
    requires Deliverable(more)
  {
    if First(more).ok then PipelineRuns(Decoded(Rest(more), buffer), bandwidth, z.scanner) else []
  }

  lemma RunsAfterReceive(z: Setup, s: Server, bandwidth: real, text: string, more: seq<Answer>)
    requires Deliverable(more) && |text| <= MESSAGE_TEXT_SIZE
    ensures Deliverable([Answer(true, text)] + more)
    ensures PipelineRuns(Decoded([Answer(true, text)] + more, s.buffer), bandwidth, z.scanner)
         == RunsToCome(z, s.(pc := Busy, buffer := Overwrite(s.buffer, text)), bandwidth, more)
  {
    hide Stops, RunOf, SpectrumDecode, Overwrite, PipelineRuns;
    RestOfOne(Answer(true, text), more);
    var contents := Overwrite(s.buffer, text);
    var (command, b) := SpectrumDecode(contents, bandwidth, z.scanner);
    PipelinesOfNext([], contents, Decoded(Rest(more), contents), bandwidth, z.scanner);
    FromNothing(PipelineRuns([contents] + Decoded(Rest(more), contents), bandwidth, z.scanner));
    FromNothing(PipelineRuns([contents], bandwidth, z.scanner));
    FromNothing(RunOf(command, b));
  }

  lemma FromNothing(runs: seq<PipelineRun>)
    ensures [] + runs == runs && runs + [] == runs
  {
  }

  /** The counterpart of RadioAdvances, for the measurements and the bandwidth in the global variable. */
  ghost predicate SpectrumAdvances(z: Setup, st: State, st': State, more: seq<Answer>)
    requires Deliverable(more)
  {
    && st.spectrum.answers <= st'.spectrum.answers && st.log <= st'.log
    && Deliverable(st'.spectrum.answers[|st.spectrum.answers|..] + more)
    && RunsToCome(z, st.spectrum, st.bandwidth, st'.spectrum.answers[|st.spectrum.answers|..] + more)
       == RunsOf(st'.log[|st.log|..]) + RunsToCome(z, st'.spectrum, st'.bandwidth, more)
  }

  lemma SpectrumGetsAnswer(z: Setup, st: State, st': State, answer: Answer, more: seq<Answer>)
    requires Deliverable(more) && |answer.text| <= MESSAGE_TEXT_SIZE
    requires st'.spectrum.answers == st.spectrum.answers + [answer] && st'.log == st.log
    requires Deliverable([answer] + more) ==>
      (RunsToCome(z, st.spectrum, st.bandwidth, [answer] + more) == RunsToCome(z, st'.spectrum, st'.bandwidth, more))
    ensures SpectrumAdvances(z, st, st', more)
  {
    hide RunsToCome;
    assert st'.spectrum.answers[|st.spectrum.answers|..] == [answer];
    assert RunsOf(st'.log[|st.log|..]) == [];
    FromNothing(RunsToCome(z, st'.spectrum, st'.bandwidth, more));
  }

  lemma SpectrumGetsNoAnswer(z: Setup, st: State, st': State, more: seq<Answer>)
    requires Deliverable(more) && st'.spectrum.answers == st.spectrum.answers && st.log <= st'.log
    requires RunsToCome(z, st.spectrum, st.bandwidth, more)
          == RunsOf(st'.log[|st.log|..]) + RunsToCome(z, st'.spectrum, st'.bandwidth, more)
    ensures SpectrumAdvances(z, st, st', more)
  {
    hide RunsToCome, RunsOf;
    assert st'.spectrum.answers[|st.spectrum.answers|..] == [];
    assert [] + more == more;
  }

  lemma SpectrumIdles(z: Setup, st: State, st': State, more: seq<Answer>)
    requires Deliverable(more) && st'.spectrum.answers == st.spectrum.answers && st'.log == st.log
    requires RunsToCome(z, st.spectrum, st.bandwidth, more) == RunsToCome(z, st'.spectrum, st'.bandwidth, more)
    ensures SpectrumAdvances(z, st, st', more)
  {
    hide RunsToCome, SpectrumAdvances;
    assert RunsOf(st'.log[|st.log|..]) == [];
    FromNothing(RunsToCome(z, st'.spectrum, st'.bandwidth, more));
    SpectrumGetsNoAnswer(z, st, st', more);
  }

  lemma SpectrumTakesNext(z: Setup, st: State, more: seq<Answer>)
    requires Deliverable(more) && st.spectrum.pc.Waiting?
    ensures SpectrumAdvances(z, st, Next(z, st, SpectrumActs), more)
  {
    hide SpectrumDecode, Stops, RunOf, SpectrumAdvances, Overwrite, PipelineRuns;
    var s, st' := st.spectrum, Next(z, st, SpectrumActs);
    match MsgRcv(st.kernel, s.id, SpectrumServerTypeCmd, MESSAGE_TEXT_SIZE).1
    case Blocked =>
      SpectrumIdles(z, st, st, more);
    case Failed =>
      RestOfOne(Answer(false, ""), more);
      PipelinesOfNext([], "", [], st.bandwidth, z.scanner);
      SpectrumGetsAnswer(z, st, st', Answer(false, ""), more);
    case Received(text) =>
      RunsAfterReceive(z, s, st.bandwidth, text, more);
      SpectrumGetsAnswer(z, st, st', Answer(true, text), more);
  }

  lemma SpectrumAcksNext(z: Setup, st: State, more: seq<Answer>)
    requires Deliverable(more) && st.spectrum.pc.Acking?
    ensures SpectrumAdvances(z, st, Next(z, st, SpectrumActs), more)
  {
    hide SpectrumDecode, Stops, RunOf, SpectrumAdvances, PipelineRuns;
    var ok := MsgSnd(st.kernel, st.spectrum.id, Message(SpectrumServerTypeAck, "")).1;
    RestOfOne(Answer(ok, ""), more);
    SpectrumGetsAnswer(z, st, Next(z, st, SpectrumActs), Answer(ok, ""), more);
  }

  lemma RunOfCommand(command: SpectrumCommand, bandwidth: real)
    ensures RunOf(command, bandwidth) == match command case ComputePower(tag) => [PipelineRun(tag, bandwidth)] case _ => []
  {
  }

  lemma SpectrumCarriesOut(z: Setup, s: Server, bandwidth: real, more: seq<Answer>)
    requires Deliverable(more) && s.pc.Busy?
    ensures match SpectrumDecode(s.buffer, bandwidth, z.scanner)
            case (StopSpectrum, b) => RunsToCome(z, s, bandwidth, more) == []
            case (ComputePower(tag), b) =>
              RunsToCome(z, s, bandwidth, more) == [PipelineRun(tag, b)] + RunsAfterAck(z, s.buffer, b, more)
            case (NoSpectrumAction, b) => RunsToCome(z, s, bandwidth, more) == RunsAfterAck(z, s.buffer, b, more)
  {
    hide SpectrumDecode, Stops, RunsAfterAck, PipelineRuns, Decoded, Deliverable, RunOf;
    StopsIsTerminate(s.buffer, bandwidth, z.scanner);
    var (command, b) := SpectrumDecode(s.buffer, bandwidth, z.scanner);
    RunOfCommand(command, b);
    FromNothing(RunsAfterAck(z, s.buffer, b, more));
  }

  lemma OneMoreRun(log: seq<Measurement>, m: Measurement)
    ensures RunsOf((log + [m])[|log|..]) == [PipelineRun(m.tag, m.bandwidth)]
  {
    assert (log + [m])[|log|..] == [m];
  }

  lemma SpectrumWorksNext(z: Setup, st: State, more: seq<Answer>)
    requires Deliverable(more) && st.spectrum.pc.Busy?
    ensures SpectrumAdvances(z, st, Next(z, st, SpectrumActs), more)
  {
    hide SpectrumDecode, Stops, SpectrumAdvances, RunsAfterAck, RunOf, RunsOf, Deliverable;
    var st' := Next(z, st, SpectrumActs);
    SpectrumCarriesOut(z, st.spectrum, st.bandwidth, more);
    match SpectrumDecode(st.spectrum.buffer, st.bandwidth, z.scanner)
    case (StopSpectrum, b) =>
      SpectrumIdles(z, st, st', more);
    case (ComputePower(tag), b) =>
      OneMoreRun(st.log, Measurement(GainInEffect(st.gains), tag, b));
      SpectrumGetsNoAnswer(z, st, st', more);
    case (NoSpectrumAction, b) =>
      SpectrumIdles(z, st, st', more);
  }

  lemma SpectrumRestsNext(z: Setup, st: State, actor: Actor)
    requires actor.SpectrumActs? ==> st.spectrum.pc.NotStarted? || st.spectrum.pc.Stopped?
    ensures var st' := Next(z, st, actor);
            && st'.log == st.log && st'.bandwidth == st.bandwidth
            && st'.spectrum.buffer == st.spectrum.buffer && st'.spectrum.answers == st.spectrum.answers
            && (st'.spectrum.pc == st.spectrum.pc || (st.spectrum.pc.NotStarted? && st'.spectrum.pc.Waiting?))
  {
    hide RadioDecode, SpectrumDecode, NextCall, MsgSnd, MsgRcv, Resume, Decide;
  }

  lemma SpectrumNext(z: Setup, st: State, actor: Actor, more: seq<Answer>)
    requires Deliverable(more)
    ensures SpectrumAdvances(z, st, Next(z, st, actor), more)
  {
    hide Next, SpectrumAdvances, RunsAfterAck, RunOf, PipelineRuns, Decoded, Stops, SpectrumDecode, Deliverable;
    if actor.SpectrumActs? && st.spectrum.pc.Waiting? {
      SpectrumTakesNext(z, st, more);
    } else if actor.SpectrumActs? && st.spectrum.pc.Busy? {
      SpectrumWorksNext(z, st, more);
    } else if actor.SpectrumActs? && st.spectrum.pc.Acking? {
      SpectrumAcksNext(z, st, more);
    } else {
      SpectrumRestsNext(z, st, actor);
      SpectrumIdles(z, st, Next(z, st, actor), more);
    }
  }

  lemma RunsOfConcat(a: seq<Measurement>, b: seq<Measurement>)
    ensures RunsOf(a + b) == RunsOf(a) + RunsOf(b)
  {
  }

  lemma SpectrumAdvancesJoin(z: Setup, st: State, mid: State, end: State, more: seq<Answer>)
    requires Deliverable(more) && SpectrumAdvances(z, mid, end, more)
    requires SpectrumAdvances(z, st, mid, end.spectrum.answers[|mid.spectrum.answers|..] + more)
    ensures SpectrumAdvances(z, st, end, more)
  {
    hide RunsToCome, RunsOf, Deliverable;
    Transcript.SuffixesJoin(st.spectrum.answers, mid.spectrum.answers, end.spectrum.answers, more);
    Suffixes(st.log, mid.log, end.log);
    RunsOfConcat(mid.log[|st.log|..], end.log[|mid.log|..]);
  }

  lemma {:induction false} RunAdvancesSpectrum(z: Setup, st: State, schedule: seq<Actor>, more: seq<Answer>)
    requires Deliverable(more)
    ensures SpectrumAdvances(z, st, Run(z, st, schedule), more)
    decreases |schedule|
  {
    if schedule == [] {
      hide SpectrumAdvances;
      SpectrumIdles(z, st, st, more);
    } else {
      var mid := Next(z, st, schedule[0]);
      var end := Run(z, mid, schedule[1..]);
      RunAdvancesSpectrum(z, mid, schedule[1..], more);
      assert Deliverable(end.spectrum.answers[|mid.spectrum.answers|..] + more);
      hide Next, SpectrumAdvances, Deliverable;
      SpectrumNext(z, st, schedule[0], end.spectrum.answers[|mid.spectrum.answers|..] + more);
      SpectrumAdvancesJoin(z, st, mid, end, more);
    }
  }

  /** What a spectrum server that has received a command is about to run. */
  function RunsAtHand(z: Setup, s: Server, bandwidth: real): seq<PipelineRun> {
    if s.pc.Busy? then
      var (command, b) := SpectrumDecode(s.buffer, bandwidth, z.scanner);
      RunOf(command, b)
    else []
  }

  lemma RunsLeft(z: Setup, s: Server, bandwidth: real)
    ensures RunsToCome(z, s, bandwidth, []) == RunsAtHand(z, s, bandwidth)
  {
    hide SpectrumDecode, Stops, RunOf;
    FromNothing(RunsAtHand(z, s, bandwidth));
  }

  /** The same for the spectrum server: its log, and the run at hand, are what its program runs on the answers it got. */
  lemma SpectrumRunIsProgram(z: Setup, schedule: seq<Actor>)
    ensures var st := Run(z, Start(z), schedule);
            && Deliverable(st.spectrum.answers)
            && PipelineRuns(Decoded(st.spectrum.answers, z.spectrumBuffer), z.bandwidth, z.scanner)
               == RunsOf(st.log) + RunsAtHand(z, st.spectrum, st.bandwidth)
  {
    hide Next, PipelineRuns, Decoded, RunsOf, RunsAtHand;
    var st := Run(z, Start(z), schedule);
    RunAdvancesSpectrum(z, Start(z), schedule, []);
    RunsLeft(z, st.spectrum, st.bandwidth);
    assert st.spectrum.answers[0..] + [] == st.spectrum.answers;
    assert st.log[0..] == st.log;
  }

  // ------------------------------------------------------------- coordinator

  predicate IsAck(mtype: MessageType) {
    mtype == RadioServerTypeAck || mtype == SpectrumServerTypeAck
  }

  /** Every acknowledgement on the queue is empty. */
  ghost predicate AcksIn(k: Kernel) {
    k.queue.Some? ==>
      forall i :: 0 <= i < |k.queue.value| && IsAck(k.queue.value[i].mtype) ==> k.queue.value[i].mtext == ""
  }

  ghost predicate EmptyAcks(st: State) {
    && |st.replies| == |st.oks|
    && (forall i :: 0 <= i < |st.replies| ==> st.replies[i] == "")
    && AcksIn(st.kernel)
  }

  lemma SendKeepsAcks(k: Kernel, id: nat, m: Message)
    requires AcksIn(k) && (IsAck(m.mtype) ==> m.mtext == "")
    ensures AcksIn(MsgSnd(k, id, m).0)
  {
  }

  lemma ReceiveKeepsAcks(k: Kernel, id: nat, mtype: MessageType, room: nat)
    requires AcksIn(k)
    ensures var (k', r) := MsgRcv(k, id, mtype, room);
            AcksIn(k') && (IsAck(mtype) && r.Received? ==> r.mtext == "")
  {
  }

  lemma NextKeepsEmptyAcks(z: Setup, st: State, actor: Actor)
    requires EmptyAcks(st)
    ensures EmptyAcks(Next(z, st, actor))
  {
    hide IfGainText, PowerText, TerminateText, RadioDecode, SpectrumDecode, MsgSnd, MsgRcv;
    match actor
    case CoordinatorActs =>
      if st.started && Calling(st.coord) {
        match NextCall(st.coord)
        case Send(mtype, text) => SendKeepsAcks(st.kernel, st.cid, Message(mtype, text));
        case Receive(mtype) => ReceiveKeepsAcks(st.kernel, st.cid, mtype, MESSAGE_TEXT_SIZE);
      }
    case RadioActs =>
      ReceiveKeepsAcks(st.kernel, st.radio.id, RadioServerTypeCmd, MESSAGE_TEXT_SIZE);
      SendKeepsAcks(st.kernel, st.radio.id, Message(RadioServerTypeAck, ""));
    case SpectrumActs =>
      ReceiveKeepsAcks(st.kernel, st.spectrum.id, SpectrumServerTypeCmd, MESSAGE_TEXT_SIZE);
      SendKeepsAcks(st.kernel, st.spectrum.id, Message(SpectrumServerTypeAck, ""));
    case FaultActs =>
  }

  lemma {:induction false} RunKeepsEmptyAcks(z: Setup, st: State, schedule: seq<Actor>)
    requires EmptyAcks(st)
    ensures EmptyAcks(Run(z, st, schedule))
    decreases |schedule|
  {
    hide Next, EmptyAcks;
    if schedule != [] {
      NextKeepsEmptyAcks(z, st, schedule[0]);
      RunKeepsEmptyAcks(z, Next(z, st, schedule[0]), schedule[1..]);
    }
  }

  /** The coordinator's answers in a run, as its program is given them. */
  function CoordinatorAnswers(st: State): (r: seq<Answer>)
    requires |st.replies| == |st.oks|
    ensures |r| == |st.oks|
  {
    seq(|st.oks|, i requires 0 <= i < |st.oks| => Answer(st.oks[i], st.replies[i]))
  }

  /**
   Every text that a run gives the coordinator is empty, and so fits the 80 octets in which
   it receives acknowledgements; and a coordinator that has exited has made exactly the
   calls of its program on those answers.
   */
  lemma CoordinatorRunIsProgram(z: Setup, schedule: seq<Actor>)
    ensures var st := Run(z, Start(z), schedule);
            && |st.replies| == |st.oks| && (forall i :: 0 <= i < |st.replies| ==> st.replies[i] == "")
            && TextsFit(CoordinatorAnswers(st), ACK_BUFFER_SIZE)
            && (st.coord.Exited? ==> st.calls == Trace(z.p, Initial(z.p, z.script), Oks(CoordinatorAnswers(st))))
  {
    var st := Run(z, Start(z), schedule);
    RunKeepsEmptyAcks(z, Start(z), schedule);
    Transcript.CompletedRunIsProgram(z, schedule);
    hide Run, Trace, Initial;
    assert Oks(CoordinatorAnswers(st)) == st.oks;
  }

  // --------------------------------------------------------- end to end

  /** The gain of a command that the radio server has received and not yet carried out. */
  function GainAtHand(s: Server): seq<int> {
    if s.pc.Busy? && RadioDecode(s.buffer).SetIfGain? then [RadioDecode(s.buffer).ifGain] else []
  }

  lemma TextAtHand(s: Server)
    ensures GainStream(GainAtHand(s)) == if s.pc.Busy? then RadioText(s.buffer) else ""
  {
    hide RadioDecode, GainCommand, GainStream;
    if s.pc.Busy? && RadioDecode(s.buffer).SetIfGain? {
      OneGain(RadioDecode(s.buffer).ifGain);
    } else {
      NoGainStream();
    }
  }

  lemma NoGainStream()
    ensures GainStream([]) == ""
  {
  }

  lemma GainsAreScheduled(z: Setup, st: State)
    requires Inv(z, st)
    ensures var gains := st.gains + GainAtHand(st.radio);
            && |st.log| <= |gains| <= |st.log| + 1 && |gains| <= N(z)
            && (forall i :: 0 <= i < |gains| ==> gains[i] == GainAt(z.p, i))
            && (forall i :: 0 <= i < |st.log| ==> gains[i] == st.log[i].ifGain)
  {
    hide SpectrumWork, Phase, Identities, RadioDecode, GainAt, TagAt, N;
    assert st.radio.pc.Busy? && RadioDecode(st.radio.buffer).SetIfGain? ==>
      GainAtHand(st.radio) == [GainAt(z.p, |st.gains|)] && |st.gains| == |st.log| < N(z);
  }

  lemma GainsInRun(z: Setup, schedule: seq<Actor>)
    requires Valid(z.p)
    ensures var st := Run(z, Start(z), schedule);
            var gains := st.gains + GainAtHand(st.radio);
            && |st.log| <= |gains| <= |st.log| + 1 && |gains| <= |SequentialLog(z)|
            && (forall i :: 0 <= i < |gains| ==> IsInt(gains[i]))
            && (forall i :: 0 <= i < |gains| ==> gains[i] == SequentialLog(z)[i].ifGain)
            && (forall i :: 0 <= i < |st.log| ==> gains[i] == st.log[i].ifGain)
  {
    var st := Run(z, Start(z), schedule);
    ReachableInv(z, schedule);
    SequentialLogClosedForm(z);
    GainsAreScheduled(z, st);
    hide Run, Inv, SequentialLog, GainAt, GainAtHand, N, IsInt;
    var gains := st.gains + GainAtHand(st.radio);
    forall i | 0 <= i < |gains| ensures IsInt(gains[i]) && gains[i] == SequentialLog(z)[i].ifGain {
      GainsAreInts(z.p, i);
      assert SequentialLog(z)[i] == Scheduled(z, i);
    }
  }

  lemma BehindZero(heard: seq<int>, gains: seq<int>)
    requires heard == [0] + gains
    ensures |heard| == |gains| + 1 && forall i :: 0 <= i < |gains| ==> heard[i + 1] == gains[i]
  {
  }

  /**
   End to end, in every state of every run, with any faults: split at its newlines, the
   stream that the radio server's program gives the radio sets gain 0 and then the gains
   of the schedule in order: those that the log records, and at most one more.
   */
  lemma RadioHearsTheLog(z: Setup, schedule: seq<Actor>, frequency: string)
    requires Valid(z.p) && NEWLINE !in frequency
    ensures var st := Run(z, Start(z), schedule);
            && Deliverable(st.radio.answers)
            && var heard := GainsOf(Lines(SetupScript(frequency) + RadioOutput(Decoded(st.radio.answers, z.radioBuffer))));
               && heard == [0] + (st.gains + GainAtHand(st.radio))
               && |st.log| <= |heard| - 1 <= |st.log| + 1
               && (forall i :: 0 <= i < |st.log| ==> heard[i + 1] == st.log[i].ifGain)
               && |heard| - 1 <= |SequentialLog(z)|
               && (forall i :: 0 <= i < |heard| - 1 ==> heard[i + 1] == SequentialLog(z)[i].ifGain)
               && heard[|heard| - 1] == GainInEffect(st.gains + GainAtHand(st.radio))
  {
    hide Run, Start, RadioOutput, Decoded, Lines, GainsOf, SetupScript, GainStream, Deliverable, RadioText, GainAtHand,
      SequentialLog, IsInt;
    var st := Run(z, Start(z), schedule);
    RadioRunIsProgram(z, schedule);
    TextAtHand(st.radio);
    GainStreamOfConcat(st.gains, GainAtHand(st.radio));
    GainsInRun(z, schedule);
    var gains := st.gains + GainAtHand(st.radio);
    StreamCarriesGains(frequency, gains);
    BehindZero(GainsOf(Lines(SetupScript(frequency) + GainStream(gains))), gains);
  }
}
