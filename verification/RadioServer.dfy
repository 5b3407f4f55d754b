/** src/radioServer.cc: set up the radio, then carry out queue commands until told to stop. */
module RadioServerProgram {
  import opened Common
  import opened CText
  import opened Wire
  import opened Coordination
  import opened QueuePort
  import opened ServerSession
  import opened RadioStream
  import opened TcpClient

  const REPLY_SIZE: nat := 16000
  const NETWORK_BUFFER_SIZE: nat := 16384

  /** Every reply of the radio leaves room for a NUL in the buffer. */
  ghost predicate RepliesFit(bursts: seq<seq<string>>) {
    forall i :: 0 <= i < |bursts| ==> |Joined(bursts[i])| < NETWORK_BUFFER_SIZE
  }

  ghost predicate Ready(networkInterface: TcpClient)
    reads networkInterface, networkInterface.socket
  {
    networkInterface.connected && RepliesFit(networkInterface.socket.bursts)
  }

  /** Sends one C string and swallows the reply, with room left for its NUL. */
  method SendRadioCommand(command: string, networkInterface: TcpClient)
    requires Ready(networkInterface)
    modifies networkInterface.socket
    ensures Ready(networkInterface)
    ensures networkInterface.socket.delivered == old(networkInterface.socket.delivered) + command
  {
    var octets := new char[|command|](i requires 0 <= i < |command| => command[i]);
    assert octets[..|command|] == command;
    var octetCount := networkInterface.SendData(octets, |command|);
    var networkOutputBuffer := new char[NETWORK_BUFFER_SIZE];
    octetCount := networkInterface.ReceiveData(networkOutputBuffer, REPLY_SIZE);
    networkOutputBuffer[octetCount] := NUL;
  }

  lemma OneMoreLine(lines: seq<string>, i: nat)
    requires i < |lines|
    ensures Written(lines[..i + 1]) == Written(lines[..i]) + (lines[i] + "\n")
  {
    if i == 0 {
      assert lines[..1] == [lines[0]] && lines[..0] == [];
      assert Written([lines[0]]) == lines[0] + "\n" + Written([]);
    } else {
      assert lines[..i + 1][1..] == lines[1..][..i] && lines[..i][1..] == lines[1..][..i - 1];
      OneMoreLine(lines[1..], i - 1);
      assert Written(lines[..i + 1]) == lines[0] + "\n" + Written(lines[1..][..i]);
      assert Written(lines[..i]) == lines[0] + "\n" + Written(lines[1..][..i - 1]);
    }
  }

  /** Sends line i of a script of which the first i lines are sent. */
  method SendScriptLine(line: string, networkInterface: TcpClient, ghost start: string, ghost lines: seq<string>, ghost i: nat)
    requires Ready(networkInterface)
    requires i < |lines| && line == lines[i]
    requires networkInterface.socket.delivered == start + Written(lines[..i])
    modifies networkInterface.socket
    ensures Ready(networkInterface)
    ensures networkInterface.socket.delivered == start + Written(lines[..i + 1])
  {
    OneMoreLine(lines, i);
    SendRadioCommand(line + "\n", networkInterface);
  }

  lemma ScriptLineByLine(frequency: string)
    ensures var lines := SetupLines(frequency);
            && |lines| == 8 && lines[..8] == lines && Written(lines[..0]) == ""
            && lines[0] == "set demodmode 0" && lines[1] == "enable iqdump" && lines[2] == "set agclevel -8"
            && lines[3] == "set rxifgain 0" && lines[4] == "set rxgain 50" && lines[5] == "start receiver"
            && lines[6] == "start ringoscillator 8 48 0" && lines[7] == "set rxfrequency " + frequency
  {
    ScriptInWriting(frequency);
  }

  /** The commands before the queue is opened. `frequency` is what %.0f prints. */
  method SetUpRadio(frequency: string, networkInterface: TcpClient)
    requires Ready(networkInterface)
    modifies networkInterface.socket
    ensures Ready(networkInterface)
    ensures networkInterface.socket.delivered == old(networkInterface.socket.delivered) + SetupScript(frequency)
  {
    ghost var start, lines := networkInterface.socket.delivered, SetupLines(frequency);
    hide Written, SetupLines, Ready, RepliesFit;
    ScriptLineByLine(frequency);
    assert start + Written(lines[..0]) == start;
    SendScriptLine("set demodmode 0", networkInterface, start, lines, 0);
    SendScriptLine("enable iqdump", networkInterface, start, lines, 1);
    SendScriptLine("set agclevel -8", networkInterface, start, lines, 2);
    SendScriptLine("set rxifgain 0", networkInterface, start, lines, 3);
    SendScriptLine("set rxgain 50", networkInterface, start, lines, 4);
    SendScriptLine("start receiver", networkInterface, start, lines, 5);
    SendScriptLine("start ringoscillator 8 48 0", networkInterface, start, lines, 6);
    SendScriptLine("set rxfrequency " + frequency, networkInterface, start, lines, 7);
  }

  /** What one decoding gives to the radio. */
  function RadioText(contents: string): string {
    match RadioDecode(contents)
    case SetIfGain(ifGain) => GainCommand(ifGain)
    case _ => ""
  }

  function RadioOutput(decoded: seq<string>): string {
    if decoded == [] then "" else RadioText(decoded[0]) + RadioOutput(decoded[1..])
  }

  /** Decodes the receive buffer; a complete gain command is printed and given to the radio. */
  method DecodeMessageQueueCommand(queueBuffer: array<char>, networkInterface: TcpClient) returns (terminate: bool)
    requires Ready(networkInterface)
    modifies networkInterface.socket
    ensures Ready(networkInterface)
    ensures terminate == RadioDecode(queueBuffer[..]).StopRadio?
    ensures networkInterface.socket.delivered == old(networkInterface.socket.delivered) + RadioText(queueBuffer[..])
  {
    hide CString, ScanInt, SkipSpace, PrintInt, Snprintf, Ready;
    terminate := false;
    var s := CString(queueBuffer[..]);
    var first := ScanInt(s);
    if first.Some? {
      var (opcode, rest) := first.value;
      if opcode == RADIO_SERVER_CMD_SET_IF_GAIN {
        var second := ScanInt(SkipSpace(rest));
        if second.Some? {
          var commandBuffer := Snprintf(RADIO_COMMAND_SIZE, "set rxifgain " + PrintInt(second.value.0) + "\n");
          SendRadioCommand(commandBuffer, networkInterface);
        }
      } else if opcode == CMD_TERMINATE {
        terminate := true;
      }
    }
  }

  lemma OutputOfNext(head: string, contents: string, later: seq<string>)
    ensures head + RadioOutput([contents] + later) == (head + RadioText(contents)) + RadioOutput(later)
    ensures head + RadioOutput([contents]) == head + RadioText(contents)
    ensures head + RadioOutput([]) == head
  {
    hide RadioText;
    assert ([contents] + later)[1..] == later;
    assert [contents][1..] == [];
  }

  /**
   The receive loop of main, for arbitrary texts, failures and prior contents of the
   receive buffer: which queue calls it makes, and what it gives to the radio.
   */
  method Serve(queueBuffer: array<char>, queue: QueuePort, networkInterface: TcpClient)
    requires queueBuffer.Length == QUEUE_BUFFER_SIZE && Deliverable(queue.answers) && Ready(networkInterface)
    modifies queueBuffer, queue, networkInterface.socket
    ensures queue.calls == old(queue.calls)
      + SessionCalls(old(queue.answers), old(queueBuffer[..]), RadioServerTypeCmd, RadioServerTypeAck)
    ensures networkInterface.socket.delivered == old(networkInterface.socket.delivered)
      + RadioOutput(Decoded(old(queue.answers), old(queueBuffer[..])))
  {
    hide Ready, Stops, RadioText, RadioOutput, RadioDecode, Overwrite, SessionCalls, Decoded, Deliverable;
    ghost var calls := queue.calls
      + SessionCalls(queue.answers, queueBuffer[..], RadioServerTypeCmd, RadioServerTypeAck);
    ghost var delivered := networkInterface.socket.delivered + RadioOutput(Decoded(queue.answers, queueBuffer[..]));
    var success, done, length := true, false, 0;
    while !done
      invariant Deliverable(queue.answers) && Ready(networkInterface)
      invariant !done ==>
        calls == queue.calls + SessionCalls(queue.answers, queueBuffer[..], RadioServerTypeCmd, RadioServerTypeAck)
      invariant !done ==>
        delivered == networkInterface.socket.delivered + RadioOutput(Decoded(queue.answers, queueBuffer[..]))
      invariant done ==> calls == queue.calls && delivered == networkInterface.socket.delivered
      decreases |queue.answers|, !done
    {
      ghost var head, sent, answers := queue.calls, networkInterface.socket.delivered, queue.answers;
      OneTurn(answers, queueBuffer[..], RadioServerTypeCmd, RadioServerTypeAck);
      success, length := queue.ReceiveData(RadioServerTypeCmd, queueBuffer);
      OutputOfNext(sent, queueBuffer[..], Decoded(Rest(Rest(answers)), queueBuffer[..]));
      if success {
        StopsIsTerminate(queueBuffer[..], 0.0, _ => None);
        CallsOfNext(head, Receive(RadioServerTypeCmd), Send(RadioServerTypeAck, ""),
          SessionCalls(Rest(Rest(answers)), queueBuffer[..], RadioServerTypeCmd, RadioServerTypeAck));
        done := DecodeMessageQueueCommand(queueBuffer, networkInterface);
        if !done {
          success := queue.SendData(RadioServerTypeAck, "");
        }
      }
      if !success {
        done := true;
      }
    }
  }

  // ---------------------------------------- a session with the coordinator

  function GainTexts(gains: seq<int>): (r: seq<string>)
    ensures |r| == |gains|
  {
    seq(|gains|, i requires 0 <= i < |gains| => IfGainText(gains[i]))
  }

  lemma GainTextBody(ifGain: int)
    requires IsInt(ifGain)
    ensures CString(IfGainText(ifGain)) == PrintInt(RADIO_SERVER_CMD_SET_IF_GAIN) + " " + PrintInt(ifGain) + "\n"
  {
    hide PrintInt, CString;
    TwoFieldShape(RADIO_SERVER_CMD_SET_IF_GAIN, ifGain);
    var body := PrintInt(RADIO_SERVER_CMD_SET_IF_GAIN) + " " + PrintInt(ifGain) + "\n";
    assert IfGainText(ifGain) == body + [NUL] + "";
    CStringOfTerminated(body, "");
  }

  lemma GainTextDecodes(ifGain: int)
    requires IsInt(ifGain)
    ensures RadioDecode(IfGainText(ifGain)) == SetIfGain(ifGain)
    ensures !Stops(IfGainText(ifGain)) && NUL in IfGainText(ifGain) && |IfGainText(ifGain)| <= 15
  {
    hide PrintInt, ScanInt, SkipSpace, CString, IfGainText;
    GainTextBody(ifGain);
    ScanOpcode(RADIO_SERVER_CMD_SET_IF_GAIN, ifGain);
    ScanArgument(ifGain);
    CommandsCarryTheirNul(ifGain);
    TextsAreShort(ifGain);
  }

  lemma SameTextSameCommand(a: string, b: string)
    requires CString(a) == CString(b)
    ensures RadioText(a) == RadioText(b)
  {
    hide CString, ScanInt;
  }

  lemma {:induction false} OutputIsGainStream(decoded: seq<string>, gains: seq<int>)
    requires |decoded| == |gains| + 1
    requires forall k :: 0 <= k < |gains| ==> RadioText(decoded[k]) == GainCommand(gains[k])
    requires RadioText(decoded[|gains|]) == ""
    ensures RadioOutput(decoded) == GainStream(gains)
  {
    hide RadioText, GainCommand;
    if gains == [] {
      assert decoded[1..] == [];
    } else {
      OutputIsGainStream(decoded[1..], gains[1..]);
    }
  }

  /**
   A server that is sent the gain commands of any list of C ints and then terminate
   gives the radio exactly one gain command per list entry, in order, whatever its
   receive buffer held before.
   */
  lemma SessionDrivesRadio(gains: seq<int>, buffer: string)
    requires forall i :: 0 <= i < |gains| ==> IsInt(gains[i])
    requires |buffer| == QUEUE_BUFFER_SIZE
    ensures Deliverable(Session(GainTexts(gains)))
    ensures RadioOutput(Decoded(Session(GainTexts(gains)), buffer)) == GainStream(gains)
  {
    hide IfGainText, CString, RadioText, Stops, RadioDecode;
    var texts := GainTexts(gains);
    forall i | 0 <= i < |gains|
      ensures RadioDecode(texts[i]) == SetIfGain(gains[i])
      ensures !Stops(texts[i]) && NUL in texts[i] && |texts[i]| <= 15
    {
      GainTextDecodes(gains[i]);
    }
    SessionIsDeliverable(texts);
    DecodedTexts(texts, buffer);
    var decoded := Decoded(Session(texts), buffer);
    forall k | 0 <= k < |gains| ensures RadioText(decoded[k]) == GainCommand(gains[k]) {
      SameTextSameCommand(decoded[k], texts[k]);
      TextOfGain(texts[k], gains[k]);
    }
    StopsIsTerminate(decoded[|gains|], 0.0, _ => None);
    TextOfStop(decoded[|gains|]);
    OutputIsGainStream(decoded, gains);
  }

  lemma TextOfGain(contents: string, ifGain: int)
    requires RadioDecode(contents) == SetIfGain(ifGain)
    ensures RadioText(contents) == GainCommand(ifGain)
  {
  }

  lemma TextOfStop(contents: string)
    requires RadioDecode(contents) == StopRadio
    ensures RadioText(contents) == ""
  {
  }
}
