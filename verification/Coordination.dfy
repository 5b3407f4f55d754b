/**
 What the coordinator does, one queue call at a time: its parameters, the schedule
 of measurements they describe, and the program of main as an automaton whose
 next state depends only on whether the last queue call succeeded.
 */
module Coordination {
  import opened Common
  import opened Wire

  /** The command-line parameters -L, -U, -S and -E. */
  datatype Params = Params(startingIfGain: int, endingIfGain: int, startingTag: int, endingTag: int)

  /** The loops count one past these values, so INT_MAX itself is not usable. */
  predicate Valid(p: Params) {
    && INT_MIN <= p.startingIfGain < INT_MAX && INT_MIN <= p.endingIfGain < INT_MAX
    && INT_MIN <= p.startingTag < INT_MAX && INT_MIN <= p.endingTag < INT_MAX
  }

  /** The mode, and in manual mode the first character of each input line still to be read. */
  datatype Script = Automatic | Manual(lines: seq<char>)

  // ------------------------------------------------------------- schedule

  /** How many distinct values a counter from lo to hi takes before it wraps; one if the range is inverted. */
  function Span(lo: int, hi: int): (n: int)
    ensures n >= 1
  {
    Max(1, hi - lo + 1)
  }

  function GainAt(p: Params, i: nat): int {
    p.startingIfGain + i % Span(p.startingIfGain, p.endingIfGain)
  }

  function TagAt(p: Params, script: Script, i: nat): int {
    if script.Automatic? then p.startingTag + i
    else p.startingTag + i % Span(p.startingTag, p.endingTag)
  }

  /** The 'm' lines read before an 'e' line or the end of the input. */
  function MeasureLines(lines: seq<char>): (n: nat)
    ensures n <= |lines|
  {
    if lines == [] || lines[0] == 'e' then 0
    else (if lines[0] == 'm' then 1 else 0) + MeasureLines(lines[1..])
  }

  function Total(p: Params, script: Script): nat {
    if script.Automatic? then Max(0, p.endingTag - p.startingTag + 1)
    else MeasureLines(script.lines)
  }

  /** Measurements still to come when `script` is what is left of the input and `tag` is current. */
  function Remaining(p: Params, script: Script, tag: int): nat {
    if script.Automatic? then Max(0, p.endingTag - tag + 1) else MeasureLines(script.lines)
  }

  lemma GainsAreInts(p: Params, i: nat)
    requires Valid(p)
    ensures IsInt(GainAt(p, i)) && GainAt(p, i) < INT_MAX
  {
  }

  lemma TagsAreInts(p: Params, script: Script, i: nat)
    requires Valid(p) && i < Total(p, script)
    ensures IsInt(TagAt(p, script, i)) && TagAt(p, script, i) < INT_MAX
  {
  }

  // -------------------------------------------------------------- program

  datatype Call = Send(mtype: MessageType, text: string) | Receive(mtype: MessageType) | Remove

  datatype Coordinator =
    | Deciding(script: Script, tag: int, ifGain: int)           // at the loop test
    | SendingGain(script: Script, tag: int, ifGain: int)
    | AwaitingGainAck(script: Script, tag: int, ifGain: int)
    | SendingPower(script: Script, tag: int, ifGain: int)       // ifGain has moved on
    | AwaitingPowerAck(script: Script, tag: int, ifGain: int)
    | StoppingRadio
    | StoppingSpectrum
    | Removing
    | Exited

  function Wrap(x: int, lo: int, hi: int): int {
    if x > hi then lo else x
  }

  function Initial(p: Params, script: Script): Coordinator {
    Deciding(script, p.startingTag, p.startingIfGain)
  }

  /** The loop test of the automatic loop, and the reading of one line in manual mode. */
  function Decide(p: Params, c: Coordinator): Coordinator
    requires c.Deciding?
  {
    match c.script
    case Automatic =>
      if c.tag <= p.endingTag then SendingGain(c.script, c.tag, c.ifGain) else StoppingRadio
    case Manual(lines) =>
      if lines == [] then Removing
      else if lines[0] == 'm' then SendingGain(Manual(lines[1..]), c.tag, c.ifGain)
      else if lines[0] == 'e' then StoppingRadio
      else Deciding(Manual(lines[1..]), c.tag, c.ifGain)
  }

  predicate Calling(c: Coordinator) {
    !c.Deciding? && !c.Removing? && !c.Exited?
  }

  /** The queue call that the coordinator makes next. */
  function NextCall(c: Coordinator): Call
    requires Calling(c)
  {
    match c
    case SendingGain(_, _, ifGain) => Send(RadioServerTypeCmd, IfGainText(ifGain))
    case AwaitingGainAck(_, _, _) => Receive(RadioServerTypeAck)
    case SendingPower(_, tag, _) => Send(SpectrumServerTypeCmd, PowerText(tag))
    case AwaitingPowerAck(_, _, _) => Receive(SpectrumServerTypeAck)
    case StoppingRadio => Send(RadioServerTypeCmd, TerminateText())
    case StoppingSpectrum => Send(SpectrumServerTypeCmd, TerminateText())
  }

  /** After the gain phase: manual mode wraps the gain at once, automatic mode only after the power phase. */
  function AfterGain(p: Params, c: Coordinator): Coordinator
    requires c.SendingGain? || c.AwaitingGainAck?
  {
    SendingPower(c.script, c.tag,
      if c.script.Automatic? then c.ifGain + 1 else Wrap(c.ifGain + 1, p.startingIfGain, p.endingIfGain))
  }

  /** After the power phase: automatic mode goes on regardless, manual mode leaves the loop on failure. */
  function AfterPower(p: Params, c: Coordinator, success: bool): Coordinator
    requires c.SendingPower? || c.AwaitingPowerAck?
  {
    if c.script.Automatic? then
      Deciding(c.script, c.tag + 1, Wrap(c.ifGain, p.startingIfGain, p.endingIfGain))
    else if success then
      Deciding(c.script, Wrap(c.tag + 1, p.startingTag, p.endingTag), c.ifGain)
    else Removing
  }

  function Resume(p: Params, c: Coordinator, success: bool): Coordinator
    requires Calling(c)
  {
    match c
    case SendingGain(script, tag, ifGain) => if success then AwaitingGainAck(script, tag, ifGain) else AfterGain(p, c)
    case AwaitingGainAck(_, _, _) => AfterGain(p, c)
    case SendingPower(script, tag, ifGain) => if success then AwaitingPowerAck(script, tag, ifGain) else AfterPower(p, c, false)
    case AwaitingPowerAck(_, _, _) => AfterPower(p, c, success)
    case StoppingRadio => StoppingSpectrum
    case StoppingSpectrum => Removing
  }

  /** Rounds that can still begin at the loop test. */
  function Budget(p: Params, script: Script, tag: int): nat {
    if script.Automatic? then Max(0, p.endingTag - tag + 1) else |script.lines|
  }

  function BudgetAfter(p: Params, script: Script, tag: int): nat {
    if script.Automatic? then Max(0, p.endingTag - tag) else |script.lines|
  }

  /** An upper bound on the coordinator's remaining steps. */
  function Work(p: Params, c: Coordinator): nat {
    match c
    case Deciding(script, tag, _) => 4 + 5 * Budget(p, script, tag)
    case SendingGain(script, tag, _) => 8 + 5 * BudgetAfter(p, script, tag)
    case AwaitingGainAck(script, tag, _) => 7 + 5 * BudgetAfter(p, script, tag)
    case SendingPower(script, tag, _) => 6 + 5 * BudgetAfter(p, script, tag)
    case AwaitingPowerAck(script, tag, _) => 5 + 5 * BudgetAfter(p, script, tag)
    case StoppingRadio => 3
    case StoppingSpectrum => 2
    case Removing => 1
    case Exited => 0
  }

  /** Every step of the coordinator, whatever the queue answers, brings it nearer to its exit. */
  lemma WorkDecreases(p: Params, c: Coordinator, success: bool)
    ensures c.Deciding? ==> Work(p, Decide(p, c)) < Work(p, c)
    ensures Calling(c) ==> Work(p, Resume(p, c, success)) < Work(p, c)
  {
  }

  // ---------------------------------------------------------------- trace

  function Head(oks: seq<bool>): bool {
    oks != [] && oks[0]
  }

  function Tail(oks: seq<bool>): seq<bool> {
    if oks == [] then [] else oks[1..]
  }

  /**
   The queue calls from a state onwards when the k-th call succeeds as oks[k] says
   and every call beyond the list fails, as it does once the queue is removed.
   */
  function Trace(p: Params, c: Coordinator, oks: seq<bool>): seq<Call>
    decreases Work(p, c)
  {
    WorkDecreases(p, c, Head(oks));
    if c.Exited? then []
    else if c.Removing? then [Remove]
    else if c.Deciding? then Trace(p, Decide(p, c), oks)
    else [NextCall(c)] + Trace(p, Resume(p, c, Head(oks)), Tail(oks))
  }

  // ---------------------------------------------------------- closed form

  lemma WrapIsModulo(lo: int, hi: int, i: nat)
    ensures Wrap(lo + i % Span(lo, hi) + 1, lo, hi) == lo + (i + 1) % Span(lo, hi)
  {
    var s := Span(lo, hi);
    if i % s + 1 < s {
      assert (i + 1) % s == i % s + 1 by { NextResidue(i, s); }
    } else {
      assert (i + 1) % s == 0 by { NextResidue(i, s); }
    }
  }

  lemma NextResidue(i: nat, s: int)
    requires s >= 1
    ensures (i + 1) % s == if i % s + 1 < s then i % s + 1 else 0
  {
    var q, r := i / s, i % s;
    assert i + 1 == q * s + (r + 1);
    if r + 1 < s {
      Residue(q, r + 1, s);
    } else {
      assert i + 1 == (q + 1) * s + 0;
      Residue(q + 1, 0, s);
    }
  }

  lemma MultipleIsFar(d: int, s: int)
    requires s >= 1
    ensures d >= 1 ==> d * s >= s
    ensures d <= -1 ==> d * s <= -s
  {
  }

  lemma Residue(q: int, r: int, s: int)
    requires 0 <= r < s
    ensures (q * s + r) % s == r
  {
    var x := q * s + r;
    assert x == (x / s) * s + x % s;
    assert (x / s - q) * s == r - x % s;
    MultipleIsFar(x / s - q, s);
  }

  /** The state at the loop test before measurement i. */
  predicate AtMeasurement(p: Params, whole: Script, c: Coordinator, i: nat) {
    && c.Deciding?
    && c.script.Automatic? == whole.Automatic?
    && i + Remaining(p, c.script, c.tag) == Total(p, whole)
    && c.tag == TagAt(p, whole, i)
    && c.ifGain == GainAt(p, i)
  }

  /** One whole round moves the counters from measurement i to measurement i + 1 in both modes. */
  lemma RoundAdvances(p: Params, whole: Script, c: Coordinator, i: nat)
    requires AtMeasurement(p, whole, c, i) && Decide(p, c).SendingGain?
    ensures i < Total(p, whole)
    ensures AtMeasurement(p, whole, AfterPower(p, AfterGain(p, Decide(p, c)), true), i + 1)
  {
    WrapIsModulo(p.startingIfGain, p.endingIfGain, i);
    WrapIsModulo(p.startingTag, p.endingTag, i);
  }

  function RoundCalls(p: Params, whole: Script, i: nat): seq<Call> {
    [Send(RadioServerTypeCmd, IfGainText(GainAt(p, i))),
     Receive(RadioServerTypeAck),
     Send(SpectrumServerTypeCmd, PowerText(TagAt(p, whole, i))),
     Receive(SpectrumServerTypeAck)]
  }

  /** The calls of measurements i, i + 1, ..., n - 1. */
  function AllRounds(p: Params, whole: Script, i: nat, n: nat): seq<Call>
    requires i <= n
    decreases n - i
  {
    if i == n then [] else RoundCalls(p, whole, i) + AllRounds(p, whole, i + 1, n)
  }

  predicate EndsWithExit(lines: seq<char>) {
    lines != [] && (lines[0] == 'e' || EndsWithExit(lines[1..]))
  }

  /** What follows the last measurement; a manual session that ends without 'e' stops no server. */
  function Farewell(script: Script): seq<Call> {
    if script.Manual? && !EndsWithExit(script.lines) then [Remove]
    else [Send(RadioServerTypeCmd, TerminateText()), Send(SpectrumServerTypeCmd, TerminateText()), Remove]
  }

  predicate AllOk(oks: seq<bool>) {
    forall i :: 0 <= i < |oks| ==> oks[i]
  }

  lemma CallSucceeds(p: Params, c: Coordinator, oks: seq<bool>, k: nat)
    requires Calling(c) && k < |oks| && oks[k]
    ensures Trace(p, c, oks[k..]) == [NextCall(c)] + Trace(p, Resume(p, c, true), oks[k + 1..])
  {
    assert Tail(oks[k..]) == oks[k + 1..];
  }

  lemma RoundTrace(p: Params, c: Coordinator, oks: seq<bool>)
    requires c.SendingGain? && AllOk(oks) && |oks| >= 4
    ensures Trace(p, c, oks) ==
      [Send(RadioServerTypeCmd, IfGainText(c.ifGain)), Receive(RadioServerTypeAck),
       Send(SpectrumServerTypeCmd, PowerText(c.tag)), Receive(SpectrumServerTypeAck)]
      + Trace(p, AfterPower(p, AfterGain(p, c), true), oks[4..])
  {
    hide Trace, IfGainText, PowerText, TerminateText;
    var c1 := Resume(p, c, true);
    var c2 := Resume(p, c1, true);
    var c3 := Resume(p, c2, true);
    assert oks[0..] == oks;
    CallSucceeds(p, c, oks, 0);
    CallSucceeds(p, c1, oks, 1);
    CallSucceeds(p, c2, oks, 2);
    CallSucceeds(p, c3, oks, 3);
  }

  lemma StopTrace(p: Params, oks: seq<bool>)
    ensures Trace(p, StoppingRadio, oks) ==
      [Send(RadioServerTypeCmd, TerminateText()), Send(SpectrumServerTypeCmd, TerminateText()), Remove]
  {
    assert Trace(p, Removing, Tail(Tail(oks))) == [Remove];
    assert Trace(p, StoppingSpectrum, Tail(oks)) == [NextCall(StoppingSpectrum)] + [Remove];
    assert Trace(p, StoppingRadio, oks) == [NextCall(StoppingRadio)] + ([NextCall(StoppingSpectrum)] + [Remove]);
  }

  lemma ScheduledRound(p: Params, whole: Script, c: Coordinator, i: nat, oks: seq<bool>)
    requires AtMeasurement(p, whole, c, i) && Decide(p, c).SendingGain?
    requires AllOk(oks) && |oks| >= 4
    ensures Trace(p, c, oks) ==
      RoundCalls(p, whole, i) + Trace(p, AfterPower(p, AfterGain(p, Decide(p, c)), true), oks[4..])
  {
    var next := Decide(p, c);
    assert next.tag == TagAt(p, whole, i) && next.ifGain == GainAt(p, i);
    RoundTrace(p, next, oks);
  }

  /**
   When every call succeeds, the coordinator's calls are exactly one round per
   scheduled measurement, with the gains and tags of the closed form, and then
   the farewell; in both modes and for inverted ranges too.
   */
  lemma {:induction false} TraceFollowsSchedule(p: Params, whole: Script, c: Coordinator, i: nat, oks: seq<bool>)
    requires AtMeasurement(p, whole, c, i)
    requires whole.Manual? ==> EndsWithExit(c.script.lines) == EndsWithExit(whole.lines)
    requires AllOk(oks) && |oks| >= 4 * (Total(p, whole) - i) + 2
    ensures Trace(p, c, oks) == AllRounds(p, whole, i, Total(p, whole)) + Farewell(whole)
    decreases Work(p, c)
  {
    var next := Decide(p, c);
    var n := Total(p, whole);
    WorkDecreases(p, c, true);
    if next.Deciding? {
      TraceFollowsSchedule(p, whole, next, i, oks);
    } else if next.SendingGain? {
      RoundAdvances(p, whole, c, i);
      var after := AfterPower(p, AfterGain(p, next), true);
      ScheduledRound(p, whole, c, i, oks);
      TraceFollowsSchedule(p, whole, after, i + 1, oks[4..]);
      RoundsThenFarewell(RoundCalls(p, whole, i), AllRounds(p, whole, i + 1, n), Farewell(whole));
    } else {
      if next.StoppingRadio? {
        StopTrace(p, oks);
      }
      assert AllRounds(p, whole, i, n) == [];
    }
  }

  lemma RoundsThenFarewell(a: seq<Call>, b: seq<Call>, c: seq<Call>)
    ensures a + (b + c) == (a + b) + c
  {
  }
}
