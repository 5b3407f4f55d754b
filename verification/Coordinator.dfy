/** src/coordinator.cc: the two loops of main and the four functions they use. */
module CoordinatorProgram {
  import opened CText
  import opened Wire
  import opened Coordination
  import opened QueuePort

  const ACK_BUFFER_SIZE: nat := 80

  method SendIfGainCommand(serverType: MessageType, ifGain: int, queue: QueuePort) returns (success: bool)
    modifies queue
    ensures queue.calls == old(queue.calls) + [Send(serverType, IfGainText(ifGain))]
    ensures queue.answers == Rest(old(queue.answers))
    ensures success == Head(Oks(old(queue.answers))) && Oks(queue.answers) == Tail(Oks(old(queue.answers)))
  {
    var command := RADIO_SERVER_CMD_SET_IF_GAIN;
    var buffer := Snprintf(COMMAND_BUFFER_SIZE, PrintInt(command) + " " + PrintInt(ifGain) + "\n");
    success := queue.SendData(serverType, buffer + [NUL]);
  }

  method SendPowerCommand(serverType: MessageType, tag: int, queue: QueuePort) returns (success: bool)
    modifies queue
    ensures queue.calls == old(queue.calls) + [Send(serverType, PowerText(tag))]
    ensures queue.answers == Rest(old(queue.answers))
    ensures success == Head(Oks(old(queue.answers))) && Oks(queue.answers) == Tail(Oks(old(queue.answers)))
  {
    var command := SPECTRUM_SERVER_CMD_COMPUTE_POWER;
    var buffer := Snprintf(COMMAND_BUFFER_SIZE, PrintInt(command) + " " + PrintInt(tag) + "\n");
    success := queue.SendData(serverType, buffer + [NUL]);
  }

  method SendTerminateCommand(serverType: MessageType, queue: QueuePort) returns (success: bool)
    modifies queue
    ensures queue.calls == old(queue.calls) + [Send(serverType, TerminateText())]
    ensures queue.answers == Rest(old(queue.answers))
    ensures success == Head(Oks(old(queue.answers))) && Oks(queue.answers) == Tail(Oks(old(queue.answers)))
  {
    var command := CMD_TERMINATE;
    var buffer := Snprintf(COMMAND_BUFFER_SIZE, PrintInt(command) + "\n");
    success := queue.SendData(serverType, buffer + [NUL]);
  }

  method WaitForServerAck(serverType: MessageType, queue: QueuePort) returns (success: bool)
    requires TextsFit(queue.answers, ACK_BUFFER_SIZE)
    modifies queue
    ensures queue.calls == old(queue.calls) + [Receive(serverType)]
    ensures queue.answers == Rest(old(queue.answers))
    ensures success == Head(Oks(old(queue.answers))) && Oks(queue.answers) == Tail(Oks(old(queue.answers)))
  {
    var buffer := new char[ACK_BUFFER_SIZE];
    var length;
    success, length := queue.ReceiveData(serverType, buffer);
  }

  /** One call moves one element from what is still to be called to what has been called. */
  lemma CallMade(done: seq<Call>, p: Params, c: Coordinator, oks: seq<bool>)
    requires Calling(c)
    ensures done + Trace(p, c, oks)
         == (done + [NextCall(c)]) + Trace(p, Resume(p, c, Head(oks)), Tail(oks))
  {
    var rest := Trace(p, Resume(p, c, Head(oks)), Tail(oks));
    assert Trace(p, c, oks) == [NextCall(c)] + rest;
    assert done + ([NextCall(c)] + rest) == (done + [NextCall(c)]) + rest;
  }

  /** The gain phase, the same in both loops: command the radio server, and wait for it if that worked. */
  method GainPhase(ghost p: Params, ghost c: Coordinator, ifGain: int, queue: QueuePort) returns (success: bool)
    requires c.SendingGain? && c.ifGain == ifGain
    requires TextsFit(queue.answers, ACK_BUFFER_SIZE)
    modifies queue
    ensures TextsFit(queue.answers, ACK_BUFFER_SIZE)
    ensures queue.calls + Trace(p, AfterGain(p, c), Oks(queue.answers))
         == old(queue.calls) + Trace(p, c, Oks(old(queue.answers)))
  {
    CallMade(queue.calls, p, c, Oks(queue.answers));
    success := SendIfGainCommand(RadioServerTypeCmd, ifGain, queue);
    if success {
      CallMade(queue.calls, p, Resume(p, c, true), Oks(queue.answers));
      success := WaitForServerAck(RadioServerTypeAck, queue);
    }
  }

  /** The power phase, the same in both loops. */
  method PowerPhase(ghost p: Params, ghost c: Coordinator, tag: int, queue: QueuePort) returns (success: bool)
    requires c.SendingPower? && c.tag == tag
    requires TextsFit(queue.answers, ACK_BUFFER_SIZE)
    modifies queue
    ensures TextsFit(queue.answers, ACK_BUFFER_SIZE)
    ensures queue.calls + Trace(p, AfterPower(p, c, success), Oks(queue.answers))
         == old(queue.calls) + Trace(p, c, Oks(old(queue.answers)))
  {
    CallMade(queue.calls, p, c, Oks(queue.answers));
    success := SendPowerCommand(SpectrumServerTypeCmd, tag, queue);
    if success {
      CallMade(queue.calls, p, Resume(p, c, true), Oks(queue.answers));
      success := WaitForServerAck(SpectrumServerTypeAck, queue);
    }
  }

  /** Terminate both servers; no acknowledgement is awaited. */
  method StopServers(ghost p: Params, queue: QueuePort) returns (success: bool)
    requires TextsFit(queue.answers, ACK_BUFFER_SIZE)
    modifies queue
    ensures TextsFit(queue.answers, ACK_BUFFER_SIZE)
    ensures queue.calls + Trace(p, Removing, Oks(queue.answers))
         == old(queue.calls) + Trace(p, StoppingRadio, Oks(old(queue.answers)))
  {
    CallMade(queue.calls, p, StoppingRadio, Oks(queue.answers));
    success := SendTerminateCommand(RadioServerTypeCmd, queue);
    CallMade(queue.calls, p, StoppingSpectrum, Oks(queue.answers));
    success := SendTerminateCommand(SpectrumServerTypeCmd, queue);
  }

  /**
   The manual loop and the release of the queue behind it. `lines` holds the first
   character of each line that fgets returns before it returns NULL. The calls are
   those of the automaton, whatever the queue answers.
   */
  method RunManual(p: Params, lines: seq<char>, queue: QueuePort)
    requires TextsFit(queue.answers, ACK_BUFFER_SIZE)
    modifies queue
    ensures queue.calls
         == old(queue.calls) + Trace(p, Initial(p, Manual(lines)), Oks(old(queue.answers)))
  {
    var success, done := true, false;
    var ifGain, tag := p.startingIfGain, p.startingTag;
    var next := 0;
    ghost var whole := queue.calls + Trace(p, Initial(p, Manual(lines)), Oks(queue.answers));
    assert lines[0..] == lines;

    while !done
      invariant next <= |lines|
      invariant TextsFit(queue.answers, ACK_BUFFER_SIZE)
      invariant !done ==> success
      invariant !done ==>
        whole == queue.calls + Trace(p, Deciding(Manual(lines[next..]), tag, ifGain), Oks(queue.answers))
      invariant done ==> whole == queue.calls + Trace(p, Removing, Oks(queue.answers))
      decreases |lines| - next, !done
    {
      ghost var c := Deciding(Manual(lines[next..]), tag, ifGain);
      if next < |lines| {
        var ch := lines[next];
        next := next + 1;
        assert lines[next - 1..][1..] == lines[next..];
        c := Decide(p, c);
        if ch == 'm' {
          success := GainPhase(p, c, ifGain, queue);
          c := AfterGain(p, c);
          ifGain := ifGain + 1;
          if ifGain > p.endingIfGain {
            ifGain := p.startingIfGain;
          }
          success := PowerPhase(p, c, tag, queue);
          tag := tag + 1;
          if tag > p.endingTag {
            tag := p.startingTag;
          }
        } else if ch == 'e' {
          success := StopServers(p, queue);
          done := true;
        }
        if !success {
          done := true;
        }
      } else {
        done := true;
      }
    }
    queue.Delete();
  }

  /** The automatic loop, the two terminate commands and the release of the queue. */
  method RunAutomatic(p: Params, queue: QueuePort)
    requires TextsFit(queue.answers, ACK_BUFFER_SIZE)
    modifies queue
    ensures queue.calls
         == old(queue.calls) + Trace(p, Initial(p, Automatic), Oks(old(queue.answers)))
  {
    var success;
    var ifGain, tag := p.startingIfGain, p.startingTag;
    ghost var whole := queue.calls + Trace(p, Initial(p, Automatic), Oks(queue.answers));

    while tag <= p.endingTag
      invariant TextsFit(queue.answers, ACK_BUFFER_SIZE)
      invariant whole == queue.calls + Trace(p, Deciding(Automatic, tag, ifGain), Oks(queue.answers))
    {
      ghost var c := Decide(p, Deciding(Automatic, tag, ifGain));
      success := GainPhase(p, c, ifGain, queue);
      c := AfterGain(p, c);
      ifGain := ifGain + 1;
      success := PowerPhase(p, c, tag, queue);
      if ifGain > p.endingIfGain {
        ifGain := p.startingIfGain;
      }
      tag := tag + 1;
    }

    success := StopServers(p, queue);
    queue.Delete();
  }
}
