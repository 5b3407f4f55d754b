/**
 How the automatic and the manual mode compare, call by call and for arbitrary
 queue answers, and how each of them behaves once the queue is gone.
 */
module ModeEquivalence {
  import opened Common
  import opened Wire
  import opened Coordination

  /** Every call of a power phase, from this state on, succeeds. */
  predicate PowersSucceed(p: Params, c: Coordinator, oks: seq<bool>)
    decreases Work(p, c)
  {
    WorkDecreases(p, c, Head(oks));
    if c.Exited? || c.Removing? then true
    else if c.Deciding? then PowersSucceed(p, Decide(p, c), oks)
    else
      && (c.SendingPower? || c.AwaitingPowerAck? ==> Head(oks))
      && PowersSucceed(p, Resume(p, c, Head(oks)), Tail(oks))
  }

  /** The manual session asks for n measurements and then leaves with 'e'; other lines may be mixed in. */
  predicate Asks(lines: seq<char>, n: int) {
    MeasureLines(lines) == n && EndsWithExit(lines)
  }

  /**
   Corresponding states of the two modes. The gains differ by a pending wrap
   between the phases, and the tags after the last measurement.
   */
  predicate Paired(p: Params, a: Coordinator, m: Coordinator) {
    match (a, m)
    case (Deciding(Automatic, tagA, gainA), Deciding(Manual(lines), tagM, gainM)) =>
      Asks(lines, Max(0, p.endingTag - tagA + 1)) && gainA == gainM && (tagA <= p.endingTag ==> tagA == tagM)
    case (SendingGain(Automatic, tagA, gainA), SendingGain(Manual(lines), tagM, gainM)) =>
      Asks(lines, p.endingTag - tagA) && gainA == gainM && tagA == tagM
    case (AwaitingGainAck(Automatic, tagA, gainA), AwaitingGainAck(Manual(lines), tagM, gainM)) =>
      Asks(lines, p.endingTag - tagA) && gainA == gainM && tagA == tagM
    case (SendingPower(Automatic, tagA, gainA), SendingPower(Manual(lines), tagM, gainM)) =>
      Asks(lines, p.endingTag - tagA) && Wrap(gainA, p.startingIfGain, p.endingIfGain) == gainM && tagA == tagM
    case (AwaitingPowerAck(Automatic, tagA, gainA), AwaitingPowerAck(Manual(lines), tagM, gainM)) =>
      Asks(lines, p.endingTag - tagA) && Wrap(gainA, p.startingIfGain, p.endingIfGain) == gainM && tagA == tagM
    case (StoppingRadio, StoppingRadio) => true
    case (StoppingSpectrum, StoppingSpectrum) => true
    case (Removing, Removing) => true
    case (Exited, Exited) => true
    case _ => false
  }

  lemma PairedCallsAgree(p: Params, a: Coordinator, m: Coordinator)
    requires Paired(p, a, m) && Calling(m)
    ensures Calling(a) && NextCall(a) == NextCall(m)
  {
  }

  lemma PairedDecide(p: Params, a: Coordinator, m: Coordinator)
    requires Paired(p, a, m) && m.Deciding?
    ensures a.Deciding?
    ensures if Decide(p, m).Deciding? then Paired(p, a, Decide(p, m)) else Paired(p, Decide(p, a), Decide(p, m))
  {
  }

  lemma PairedResume(p: Params, a: Coordinator, m: Coordinator, success: bool)
    requires Paired(p, a, m) && Calling(m) && Calling(a)
    requires m.SendingPower? || m.AwaitingPowerAck? ==> success
    ensures Paired(p, Resume(p, a, success), Resume(p, m, success))
  {
  }

  /** The automatic mode always ends with two terminate commands and the removal. */
  lemma {:induction false} AutomaticTraceIsLong(p: Params, c: Coordinator, oks: seq<bool>)
    requires c.StoppingRadio? || (!c.StoppingSpectrum? && !c.Removing? && !c.Exited? && c.script.Automatic?)
    ensures |Trace(p, c, oks)| >= 3
    decreases Work(p, c)
  {
    WorkDecreases(p, c, Head(oks));
    if c.StoppingRadio? {
      StopTrace(p, oks);
    } else if c.Deciding? {
      AutomaticTraceIsLong(p, Decide(p, c), oks);
    } else {
      AutomaticTraceIsLong(p, Resume(p, c, Head(oks)), Tail(oks));
    }
  }

  lemma {:induction false} PairedTraces(p: Params, a: Coordinator, m: Coordinator, oks: seq<bool>)
    requires Paired(p, a, m)
    ensures PowersSucceed(p, a, oks) ==> Trace(p, a, oks) == Trace(p, m, oks)
    ensures !PowersSucceed(p, a, oks) ==> |Trace(p, m, oks)| < |Trace(p, a, oks)|
    decreases Work(p, m)
  {
    WorkDecreases(p, m, Head(oks));
    if m.Deciding? {
      PairedDecide(p, a, m);
      if Decide(p, m).Deciding? {
        PairedTraces(p, a, Decide(p, m), oks);
      } else {
        PairedTraces(p, Decide(p, a), Decide(p, m), oks);
      }
    } else if Calling(m) {
      PairedCallsAgree(p, a, m);
      var ok := Head(oks);
      if (m.SendingPower? || m.AwaitingPowerAck?) && !ok {
        assert Resume(p, m, ok) == Removing;
        AutomaticTraceIsLong(p, Resume(p, a, ok), Tail(oks));
      } else {
        PairedResume(p, a, m, ok);
        PairedTraces(p, Resume(p, a, ok), Resume(p, m, ok), Tail(oks));
      }
    }
  }

  /**
   Automatic mode makes exactly the queue calls of manual mode fed as many 'm'
   lines as there are tags and then 'e', whatever other lines are mixed in, if
   and only if every power phase of the run succeeds; a failed gain phase alone
   does not tell them apart.
   */
  lemma ModesAgreeIff(p: Params, lines: seq<char>, oks: seq<bool>)
    requires Asks(lines, Total(p, Automatic))
    ensures Trace(p, Initial(p, Automatic), oks) == Trace(p, Initial(p, Manual(lines)), oks)
       <==> PowersSucceed(p, Initial(p, Automatic), oks)
  {
    PairedTraces(p, Initial(p, Automatic), Initial(p, Manual(lines)), oks);
  }

  // ------------------------------------------------------ a removed queue

  predicate IsManual(c: Coordinator) {
    c.Deciding? || c.SendingGain? || c.AwaitingGainAck? || c.SendingPower? || c.AwaitingPowerAck? ==> c.script.Manual?
  }

  lemma {:induction false} ManualAfterRemoval(p: Params, c: Coordinator)
    requires IsManual(c)
    ensures |Trace(p, c, [])| <= 3
    decreases Work(p, c)
  {
    WorkDecreases(p, c, false);
    match c
    case Deciding(_, _, _) => ManualAfterRemoval(p, Decide(p, c));
    case SendingGain(_, _, _) => ManualPowerAfterRemoval(p, AfterGain(p, c));
    case AwaitingGainAck(_, _, _) => ManualPowerAfterRemoval(p, AfterGain(p, c));
    case SendingPower(_, _, _) => ManualPowerAfterRemoval(p, c);
    case AwaitingPowerAck(_, _, _) =>
      assert Trace(p, c, []) == [NextCall(c)] + Trace(p, Removing, []);
    case StoppingRadio => StopTrace(p, []);
    case StoppingSpectrum =>
      assert Trace(p, c, []) == [NextCall(c)] + Trace(p, Removing, []);
    case Removing =>
    case Exited =>
  }

  lemma ManualPowerAfterRemoval(p: Params, c: Coordinator)
    requires IsManual(c) && c.SendingPower?
    ensures |Trace(p, c, [])| == 2
  {
    assert Trace(p, c, []) == [NextCall(c)] + Trace(p, Removing, []);
  }

  /**
   However many lines are still to be read, manual mode makes at most two more
   queue calls after the queue's last answer, and then removes and exits.
   */
  lemma {:induction false} ManualStopsSoon(p: Params, c: Coordinator, oks: seq<bool>)
    requires IsManual(c)
    ensures |Trace(p, c, oks)| <= |oks| + 3
    decreases Work(p, c)
  {
    WorkDecreases(p, c, Head(oks));
    if oks == [] {
      ManualAfterRemoval(p, c);
    } else if c.Deciding? {
      ManualStopsSoon(p, Decide(p, c), oks);
    } else if Calling(c) {
      ManualStopsSoon(p, Resume(p, c, Head(oks)), Tail(oks));
    }
  }

  /** What automatic mode still attempts from measurement i on when no call succeeds. */
  function Attempts(p: Params, i: nat): seq<Call>
    decreases Total(p, Automatic) - i
  {
    if i >= Total(p, Automatic) then Farewell(Automatic)
    else
      [Send(RadioServerTypeCmd, IfGainText(GainAt(p, i))), Send(SpectrumServerTypeCmd, PowerText(TagAt(p, Automatic, i)))]
      + Attempts(p, i + 1)
  }

  lemma FailedRound(p: Params, tag: int, ifGain: int)
    requires tag <= p.endingTag
    ensures Trace(p, Deciding(Automatic, tag, ifGain), [])
         == [Send(RadioServerTypeCmd, IfGainText(ifGain)), Send(SpectrumServerTypeCmd, PowerText(tag))]
            + Trace(p, Deciding(Automatic, tag + 1, Wrap(ifGain + 1, p.startingIfGain, p.endingIfGain)), [])
  {
    hide IfGainText, PowerText, TerminateText, Wrap;
    var d := SendingGain(Automatic, tag, ifGain);
    var e := SendingPower(Automatic, tag, ifGain + 1);
    var f := Deciding(Automatic, tag + 1, Wrap(ifGain + 1, p.startingIfGain, p.endingIfGain));
    assert Trace(p, e, []) == [NextCall(e)] + Trace(p, f, []);
    assert Trace(p, d, []) == [NextCall(d)] + Trace(p, e, []);
  }

  /**
   Automatic mode attempts both commands of every remaining measurement all the same, with
   the scheduled gains and tags, and then both terminate commands and the removal.
   */
  lemma {:induction false} AutomaticGoesOn(p: Params, tag: int, ifGain: int)
    ensures |Trace(p, Deciding(Automatic, tag, ifGain), [])| == 2 * Max(0, p.endingTag - tag + 1) + 3
    ensures tag >= p.startingTag && ifGain == GainAt(p, tag - p.startingTag) ==>
      Trace(p, Deciding(Automatic, tag, ifGain), []) == Attempts(p, tag - p.startingTag)
    decreases p.endingTag - tag
  {
    hide IfGainText, PowerText, TerminateText, Wrap, GainAt;
    if tag <= p.endingTag {
      hide Trace;
      FailedRound(p, tag, ifGain);
      AutomaticGoesOn(p, tag + 1, Wrap(ifGain + 1, p.startingIfGain, p.endingIfGain));
      if tag >= p.startingTag && ifGain == GainAt(p, tag - p.startingTag) {
        NextGain(p, tag - p.startingTag);
      }
    } else {
      StopTrace(p, []);
    }
  }

  lemma NextGain(p: Params, i: nat)
    ensures Wrap(GainAt(p, i) + 1, p.startingIfGain, p.endingIfGain) == GainAt(p, i + 1)
  {
    WrapIsModulo(p.startingIfGain, p.endingIfGain, i);
  }

  /** The counters of automatic mode in any state, however its calls went: the gain is ahead between the phases. */
  predicate OnSchedule(p: Params, c: Coordinator) {
    match c
    case Deciding(s, tag, gain) => s.Automatic? && tag >= p.startingTag && gain == GainAt(p, tag - p.startingTag)
    case SendingGain(s, tag, gain) =>
      s.Automatic? && p.startingTag <= tag <= p.endingTag && gain == GainAt(p, tag - p.startingTag)
    case AwaitingGainAck(s, tag, gain) =>
      s.Automatic? && p.startingTag <= tag <= p.endingTag && gain == GainAt(p, tag - p.startingTag)
    case SendingPower(s, tag, gain) =>
      s.Automatic? && p.startingTag <= tag <= p.endingTag && gain == GainAt(p, tag - p.startingTag) + 1
    case AwaitingPowerAck(s, tag, gain) =>
      s.Automatic? && p.startingTag <= tag <= p.endingTag && gain == GainAt(p, tag - p.startingTag) + 1
    case _ => true
  }

  lemma StaysOnSchedule(p: Params, c: Coordinator, success: bool)
    requires OnSchedule(p, c)
    ensures c.Deciding? ==> OnSchedule(p, Decide(p, c))
    ensures Calling(c) ==> OnSchedule(p, Resume(p, c, success))
  {
    hide GainAt, Wrap;
    if c.SendingPower? || c.AwaitingPowerAck? {
      NextGain(p, c.tag - p.startingTag);
    }
  }

  /** The calls of automatic mode from a state on when none of them succeeds. */
  function CallsWithoutQueue(p: Params, c: Coordinator): seq<Call>
    requires OnSchedule(p, c)
  {
    match c
    case Deciding(_, tag, _) => Attempts(p, tag - p.startingTag)
    case SendingGain(_, tag, _) => Attempts(p, tag - p.startingTag)
    case AwaitingGainAck(_, tag, _) => [Receive(RadioServerTypeAck)] + Attempts(p, tag - p.startingTag)[1..]
    case SendingPower(_, tag, _) => Attempts(p, tag - p.startingTag)[1..]
    case AwaitingPowerAck(_, tag, _) => [Receive(SpectrumServerTypeAck)] + Attempts(p, tag - p.startingTag + 1)
    case StoppingRadio => Farewell(Automatic)
    case StoppingSpectrum => Farewell(Automatic)[1..]
    case Removing => [Remove]
    case Exited => []
  }

  lemma CallFails(p: Params, c: Coordinator)
    requires Calling(c)
    ensures Trace(p, c, []) == [NextCall(c)] + Trace(p, Resume(p, c, false), [])
  {
  }

  lemma AttemptsOfRound(p: Params, i: nat)
    requires i < Total(p, Automatic)
    ensures |Attempts(p, i)| > 1
    ensures Attempts(p, i)[0] == Send(RadioServerTypeCmd, IfGainText(GainAt(p, i)))
    ensures Attempts(p, i)[1..] == [Send(SpectrumServerTypeCmd, PowerText(TagAt(p, Automatic, i)))] + Attempts(p, i + 1)
    ensures Attempts(p, i) == [Attempts(p, i)[0]] + Attempts(p, i)[1..]
  {
    hide IfGainText, PowerText, TerminateText, GainAt, TagAt;
  }

  lemma FromPower(p: Params, c: Coordinator)
    requires OnSchedule(p, c) && c.SendingPower?
    ensures Trace(p, c, []) == Attempts(p, c.tag - p.startingTag)[1..]
  {
    hide IfGainText, PowerText, TerminateText, GainAt, Wrap, Trace, Attempts;
    CallFails(p, c);
    NextGain(p, c.tag - p.startingTag);
    AutomaticGoesOn(p, c.tag + 1, Wrap(c.ifGain, p.startingIfGain, p.endingIfGain));
    AttemptsOfRound(p, c.tag - p.startingTag);
  }

  /** Without the queue, automatic mode makes exactly these calls from any of its states. */
  lemma AutomaticWithoutQueue(p: Params, c: Coordinator)
    requires OnSchedule(p, c)
    ensures Trace(p, c, []) == CallsWithoutQueue(p, c)
  {
    hide IfGainText, PowerText, TerminateText, GainAt, Wrap, Attempts;
    match c
    case Deciding(_, tag, gain) => AutomaticGoesOn(p, tag, gain);
    case SendingGain(_, tag, gain) =>
      CallFails(p, c);
      FromPower(p, Resume(p, c, false));
      AttemptsOfRound(p, tag - p.startingTag);
    case AwaitingGainAck(_, tag, gain) =>
      CallFails(p, c);
      FromPower(p, Resume(p, c, false));
    case SendingPower(_, tag, gain) => FromPower(p, c);
    case AwaitingPowerAck(_, tag, gain) =>
      CallFails(p, c);
      NextGain(p, tag - p.startingTag);
      AutomaticGoesOn(p, tag + 1, Wrap(gain, p.startingIfGain, p.endingIfGain));
    case StoppingRadio => StopTrace(p, []);
    case StoppingSpectrum =>
      CallFails(p, c);
    case Removing =>
    case Exited =>
  }

  lemma {:induction false} TraceEndsWithRemove(p: Params, c: Coordinator, oks: seq<bool>)
    requires !c.Exited?
    ensures Trace(p, c, oks) != [] && Trace(p, c, oks)[|Trace(p, c, oks)| - 1] == Remove
    decreases Work(p, c)
  {
    hide IfGainText, PowerText, TerminateText;
    WorkDecreases(p, c, Head(oks));
    if c.Deciding? {
      TraceEndsWithRemove(p, Decide(p, c), oks);
    } else if Calling(c) {
      TraceEndsWithRemove(p, Resume(p, c, Head(oks)), Tail(oks));
    }
  }
}
