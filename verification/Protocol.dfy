/**
 The three programs and the kernel's queue as one interleaved transition system.
 Each step is one queue call, one command carried out, or one loop test of one
 program, and any program that is not blocked may take the next step. A fourth
 actor removes the queue from outside.
 */
module Protocol {
  import opened Common
  import opened CText
  import opened Wire
  import opened Kernel
  import opened Coordination
  import opened QueuePort

  type QueueBuffer = s: string | |s| == QUEUE_BUFFER_SIZE witness seq(QUEUE_BUFFER_SIZE, _ => NUL)

  /** What a run starts from; the servers' buffers hold anything at all. */
  datatype Setup = Setup(
    p: Params,
    script: Script,
    bandwidth: real,
    scanner: FloatScanner,
    radioBuffer: QueueBuffer,
    spectrumBuffer: QueueBuffer)

  datatype ServerPc = NotStarted | Waiting | Busy | Acking | Stopped

  /** A server: where it is, the queue identifier it opened, its receive buffer, and (history) the answers it got. */
  datatype Server = Server(pc: ServerPc, id: nat, buffer: QueueBuffer, answers: seq<Answer>)

  /** One line of the spectrum server's output file, with the gain the radio had at that moment. */
  datatype Measurement = Measurement(ifGain: int, tag: int, bandwidth: real)

  /**
   `gains` and `log` are what the two servers have done; `calls`, `oks` and `replies` are
   the coordinator's queue calls, their outcomes and the texts received. They are history only.
   */
  datatype State = State(
    kernel: Kernel,
    started: bool,
    cid: nat,
    coord: Coordinator,
    radio: Server,
    spectrum: Server,
    bandwidth: real,
    gains: seq<int>,
    log: seq<Measurement>,
    calls: seq<Call>,
    oks: seq<bool>,
    replies: seq<string>)

  function Start(z: Setup): State {
    State(BOOTED, false, 0, Initial(z.p, z.script),
          Server(NotStarted, 0, z.radioBuffer, []), Server(NotStarted, 0, z.spectrumBuffer, []),
          z.bandwidth, [], [], [], [], [])
  }

  /** The setup script leaves the gain at 0; after that it is the last gain commanded. */
  function GainInEffect(gains: seq<int>): int {
    if gains == [] then 0 else gains[|gains| - 1]
  }

  // ---------------------------------------------------------------- steps

  function Answered(z: Setup, st: State, k: Kernel, ok: bool, reply: string): State
    requires Calling(st.coord)
  {
    st.(kernel := k, coord := Resume(z.p, st.coord, ok),
        calls := st.calls + [NextCall(st.coord)], oks := st.oks + [ok], replies := st.replies + [reply])
  }

  /** The coordinator's next step, or None while it is blocked or after it has exited. */
  function CoordinatorStep(z: Setup, st: State): Option<State> {
    if !st.started then
      var (k, id) := MsgGet(st.kernel);
      Some(st.(kernel := k, started := true, cid := id))
    else if st.coord.Exited? then None
    else if st.coord.Removing? then
      Some(st.(kernel := MsgRmid(st.kernel, st.cid), coord := Exited, calls := st.calls + [Remove]))
    else if st.coord.Deciding? then Some(st.(coord := Decide(z.p, st.coord)))
    else
      match NextCall(st.coord)
      case Send(mtype, text) =>
        var (k, ok) := MsgSnd(st.kernel, st.cid, Message(mtype, text));
        Some(Answered(z, st, k, ok, ""))
      case Receive(mtype) =>
        var (k, receipt) := MsgRcv(st.kernel, st.cid, mtype, MESSAGE_TEXT_SIZE);
        (match receipt
         case Blocked => None
         case Failed => Some(Answered(z, st, k, false, ""))
         case Received(text) => Some(Answered(z, st, k, true, text)))
      case Remove => None
  }

  /** A server's receive at the head of its loop. */
  function Take(k: Kernel, s: Server, mtype: MessageType): Option<(Kernel, Server)> {
    match MsgRcv(k, s.id, mtype, MESSAGE_TEXT_SIZE)
    case (_, Blocked) => None
    case (k', Failed) => Some((k', s.(pc := Stopped, answers := s.answers + [Answer(false, "")])))
    case (k', Received(text)) =>
      Some((k', s.(pc := Busy, buffer := Overwrite(s.buffer, text), answers := s.answers + [Answer(true, text)])))
  }

  /** A server's acknowledgement, without payload, at the end of its loop. */
  function Acknowledge(k: Kernel, s: Server, mtype: MessageType): (Kernel, Server) {
    var (k', ok) := MsgSnd(k, s.id, Message(mtype, ""));
    (k', s.(pc := if ok then Waiting else Stopped, answers := s.answers + [Answer(ok, "")]))
  }

  function Open(k: Kernel, s: Server): (Kernel, Server) {
    var (k', id) := MsgGet(k);
    (k', s.(pc := Waiting, id := id))
  }

  function RadioStep(z: Setup, st: State): Option<State> {
    match st.radio.pc
    case NotStarted =>
      var (k, s) := Open(st.kernel, st.radio);
      Some(st.(kernel := k, radio := s))
    case Waiting =>
      (match Take(st.kernel, st.radio, RadioServerTypeCmd)
       case None => None
       case Some((k, s)) => Some(st.(kernel := k, radio := s)))
    case Busy =>
      (match RadioDecode(st.radio.buffer)
       case StopRadio => Some(st.(radio := st.radio.(pc := Stopped)))
       case SetIfGain(ifGain) => Some(st.(radio := st.radio.(pc := Acking), gains := st.gains + [ifGain]))
       case NoRadioAction => Some(st.(radio := st.radio.(pc := Acking))))
    case Acking =>
      var (k, s) := Acknowledge(st.kernel, st.radio, RadioServerTypeAck);
      Some(st.(kernel := k, radio := s))
    case Stopped => None
  }

  function SpectrumStep(z: Setup, st: State): Option<State> {
    match st.spectrum.pc
    case NotStarted =>
      var (k, s) := Open(st.kernel, st.spectrum);
      Some(st.(kernel := k, spectrum := s))
    case Waiting =>
      (match Take(st.kernel, st.spectrum, SpectrumServerTypeCmd)
       case None => None
       case Some((k, s)) => Some(st.(kernel := k, spectrum := s)))
    case Busy =>
      (match SpectrumDecode(st.spectrum.buffer, st.bandwidth, z.scanner)
       case (StopSpectrum, b) => Some(st.(spectrum := st.spectrum.(pc := Stopped), bandwidth := b))
       case (ComputePower(tag), b) =>
         Some(st.(spectrum := st.spectrum.(pc := Acking), bandwidth := b,
                  log := st.log + [Measurement(GainInEffect(st.gains), tag, b)]))
       case (NoSpectrumAction, b) => Some(st.(spectrum := st.spectrum.(pc := Acking), bandwidth := b)))
    case Acking =>
      var (k, s) := Acknowledge(st.kernel, st.spectrum, SpectrumServerTypeAck);
      Some(st.(kernel := k, spectrum := s))
    case Stopped => None
  }

  /** Somebody removes the queue that exists now. */
  function FaultStep(st: State): Option<State> {
    if st.kernel.queue.Some? then Some(st.(kernel := MsgRmid(st.kernel, st.kernel.generation))) else None
  }

  datatype Actor = CoordinatorActs | RadioActs | SpectrumActs | FaultActs

  function Step(z: Setup, st: State, actor: Actor): Option<State> {
    match actor
    case CoordinatorActs => CoordinatorStep(z, st)
    case RadioActs => RadioStep(z, st)
    case SpectrumActs => SpectrumStep(z, st)
    case FaultActs => FaultStep(st)
  }

  /** One scheduling decision; choosing a blocked or finished actor changes nothing. */
  function Next(z: Setup, st: State, actor: Actor): State {
    match Step(z, st, actor)
    case Some(st') => st'
    case None => st
  }

  /** The state after a schedule. Every interleaving is some schedule. */
  function Run(z: Setup, st: State, schedule: seq<Actor>): State
    decreases |schedule|
  {
    if schedule == [] then st else Run(z, Next(z, st, schedule[0]), schedule[1..])
  }

  // ------------------------------------------------ what a step can change

  /** The coordinator's step in its program's terms: no call, the removal, or one call with its outcome. */
  lemma CoordinatorStepShape(z: Setup, st: State)
    ensures var st' := Next(z, st, CoordinatorActs);
            || (&& st'.oks == st.oks && st'.calls == st.calls
                && (st'.coord == st.coord || (st.coord.Deciding? && st'.coord == Decide(z.p, st.coord))))
            || (st'.oks == st.oks && st'.calls == st.calls + [Remove] && st.coord.Removing? && st'.coord == Exited)
            || (&& Calling(st.coord) && |st'.oks| == |st.oks| + 1 && st.oks <= st'.oks
                && st'.calls == st.calls + [NextCall(st.coord)] && st'.coord == Resume(z.p, st.coord, st'.oks[|st.oks|]))
  {
    hide NextCall, Resume, Decide, MsgSnd, MsgRcv;
  }

  /** Nobody else touches the coordinator. */
  lemma OthersLeaveCoordinator(z: Setup, st: State, actor: Actor)
    requires !actor.CoordinatorActs?
    ensures var st' := Next(z, st, actor);
            && st'.oks == st.oks && st'.replies == st.replies && st'.calls == st.calls
            && st'.coord == st.coord && st'.started == st.started && st'.cid == st.cid
  {
    hide RadioDecode, SpectrumDecode, Take, Acknowledge, Open;
  }

  lemma {:induction false} RunConcat(z: Setup, st: State, a: seq<Actor>, b: seq<Actor>)
    ensures Run(z, st, a + b) == Run(z, Run(z, st, a), b)
    decreases |a|
  {
    hide Next;
    if a == [] {
      assert a + b == b;
    } else {
      assert (a + b)[1..] == a[1..] + b;
      RunConcat(z, Next(z, st, a[0]), a[1..], b);
    }
  }
}
