/**
 The receive, decode and acknowledge loop that both servers have, for arbitrary
 answers of the queue: texts of any content, and failures at any call.
 */
module ServerSession {
  import opened Common
  import opened CText
  import opened Wire
  import opened Coordination
  import opened QueuePort

  /** The opcode that ends either server's loop. */
  predicate Stops(contents: string) {
    match ScanInt(CString(contents))
    case Some((opcode, _)) => opcode == CMD_TERMINATE
    case None => false
  }

  lemma StopsIsTerminate(contents: string, bandwidth: real, scanner: FloatScanner)
    ensures RadioDecode(contents).StopRadio? <==> Stops(contents)
    ensures SpectrumDecode(contents, bandwidth, scanner).0.StopSpectrum? <==> Stops(contents)
  {
  }

  /** Every text the queue delivers fits a message, and so the servers' buffers. */
  ghost predicate Deliverable(answers: seq<Answer>) {
    TextsFit(answers, MESSAGE_TEXT_SIZE)
  }

  /** The queue calls of a server whose receive buffer holds `buffer` at the head of its loop. */
  function SessionCalls(answers: seq<Answer>, buffer: string, command: MessageType, ack: MessageType): seq<Call>
    requires Deliverable(answers) && |buffer| == QUEUE_BUFFER_SIZE
    decreases |answers|
  {
    if !First(answers).ok then [Receive(command)]
    else
      var contents := Overwrite(buffer, First(answers).text);
      if Stops(contents) then [Receive(command)]
      else if !First(Rest(answers)).ok then [Receive(command), Send(ack, "")]
      else [Receive(command), Send(ack, "")] + SessionCalls(Rest(Rest(answers)), contents, command, ack)
  }

  /** What the receive buffer holds at each decoding, in order. */
  function Decoded(answers: seq<Answer>, buffer: string): (r: seq<string>)
    requires Deliverable(answers) && |buffer| == QUEUE_BUFFER_SIZE
    ensures forall i :: 0 <= i < |r| ==> |r[i]| == QUEUE_BUFFER_SIZE
    decreases |answers|
  {
    if !First(answers).ok then []
    else
      var contents := Overwrite(buffer, First(answers).text);
      if Stops(contents) || !First(Rest(answers)).ok then [contents]
      else [contents] + Decoded(Rest(Rest(answers)), contents)
  }

  /** One turn of either server's loop. */
  lemma OneTurn(answers: seq<Answer>, buffer: string, command: MessageType, ack: MessageType)
    requires Deliverable(answers) && |buffer| == QUEUE_BUFFER_SIZE
    ensures Deliverable(Rest(answers)) && Deliverable(Rest(Rest(answers)))
    ensures |First(answers).text| <= MESSAGE_TEXT_SIZE
    ensures !First(answers).ok ==>
      SessionCalls(answers, buffer, command, ack) == [Receive(command)] && Decoded(answers, buffer) == []
    ensures First(answers).ok ==>
      var contents, later := Overwrite(buffer, First(answers).text), Rest(Rest(answers));
      if Stops(contents) then
        SessionCalls(answers, buffer, command, ack) == [Receive(command)] && Decoded(answers, buffer) == [contents]
      else if !First(Rest(answers)).ok then
        && SessionCalls(answers, buffer, command, ack) == [Receive(command), Send(ack, "")]
        && Decoded(answers, buffer) == [contents]
      else
        && SessionCalls(answers, buffer, command, ack)
           == [Receive(command), Send(ack, "")] + SessionCalls(later, contents, command, ack)
        && Decoded(answers, buffer) == [contents] + Decoded(later, contents)
  {
    hide Stops;
  }

  predicate Alternates(calls: seq<Call>, command: MessageType, ack: MessageType) {
    forall k :: 0 <= k < |calls| ==> calls[k] == if k % 2 == 0 then Receive(command) else Send(ack, "")
  }

  lemma AlternatesLonger(calls: seq<Call>, command: MessageType, ack: MessageType)
    requires Alternates(calls, command, ack)
    ensures Alternates([Receive(command), Send(ack, "")] + calls, command, ack)
  {
    var longer := [Receive(command), Send(ack, "")] + calls;
    forall k | 2 <= k < |longer| ensures longer[k] == if k % 2 == 0 then Receive(command) else Send(ack, "") {
      assert longer[k] == calls[k - 2];
    }
  }

  lemma {:induction false} CallsAlternate(answers: seq<Answer>, buffer: string, command: MessageType, ack: MessageType)
    requires Deliverable(answers) && |buffer| == QUEUE_BUFFER_SIZE
    ensures Alternates(SessionCalls(answers, buffer, command, ack), command, ack)
    decreases |answers|
  {
    hide Stops, Overwrite;
    if First(answers).ok {
      var contents := Overwrite(buffer, First(answers).text);
      if !Stops(contents) && First(Rest(answers)).ok {
        CallsAlternate(Rest(Rest(answers)), contents, command, ack);
        AlternatesLonger(SessionCalls(Rest(Rest(answers)), contents, command, ack), command, ack);
      }
    }
  }

  /** How many of the decoded contents are commands to acknowledge. */
  function NotStopping(decoded: seq<string>): nat {
    if decoded == [] then 0 else (if Stops(decoded[0]) then 0 else 1) + NotStopping(decoded[1..])
  }

  lemma {:induction false} AcksAreCounted(answers: seq<Answer>, buffer: string, command: MessageType, ack: MessageType)
    requires Deliverable(answers) && |buffer| == QUEUE_BUFFER_SIZE
    ensures |SessionCalls(answers, buffer, command, ack)| / 2 == NotStopping(Decoded(answers, buffer))
    decreases |answers|
  {
    hide Stops, Overwrite;
    if First(answers).ok {
      var contents := Overwrite(buffer, First(answers).text);
      if !Stops(contents) && First(Rest(answers)).ok {
        AcksAreCounted(Rest(Rest(answers)), contents, command, ack);
        assert ([contents] + Decoded(Rest(Rest(answers)), contents))[1..] == Decoded(Rest(Rest(answers)), contents);
      } else {
        assert [contents][1..] == [];
      }
    }
  }

  /** Only the last contents decoded can be a terminate command. */
  lemma {:induction false} TerminateIsLast(answers: seq<Answer>, buffer: string, k: nat)
    requires Deliverable(answers) && |buffer| == QUEUE_BUFFER_SIZE
    requires k < |Decoded(answers, buffer)| && Stops(Decoded(answers, buffer)[k])
    ensures k == |Decoded(answers, buffer)| - 1
    decreases |answers|
  {
    hide Stops, Overwrite;
    var contents := Overwrite(buffer, First(answers).text);
    if k > 0 {
      TerminateIsLast(Rest(Rest(answers)), contents, k - 1);
    }
  }

  /**
   For arbitrary texts, malformed and unknown ones included, and failures at any call: a
   server's calls alternate between receiving and acknowledging without payload, and
   there is exactly one acknowledgement per text received that is not a terminate command.
   */
  lemma OneAckPerText(answers: seq<Answer>, buffer: string, command: MessageType, ack: MessageType)
    requires Deliverable(answers) && |buffer| == QUEUE_BUFFER_SIZE
    ensures var calls := SessionCalls(answers, buffer, command, ack);
            && Alternates(calls, command, ack)
            && |calls| / 2 == NotStopping(Decoded(answers, buffer))
  {
    CallsAlternate(answers, buffer, command, ack);
    AcksAreCounted(answers, buffer, command, ack);
  }

  lemma CallsOfNext(head: seq<Call>, a: Call, b: Call, later: seq<Call>)
    ensures head + ([a, b] + later) == ((head + [a]) + [b]) + later
    ensures head + [a, b] == (head + [a]) + [b]
  {
  }

  // ------------------------------------------- the coordinator's texts

  /** Each text delivered and its acknowledgement taken, and a terminate command at the end. */
  function Session(texts: seq<string>): seq<Answer> {
    if texts == [] then [Answer(true, TerminateText())]
    else [Answer(true, texts[0]), Answer(true, "")] + Session(texts[1..])
  }

  ghost predicate AreCommands(texts: seq<string>) {
    forall i :: 0 <= i < |texts| ==> |texts[i]| <= MESSAGE_TEXT_SIZE && NUL in texts[i] && !Stops(texts[i])
  }

  lemma {:induction false} SessionIsDeliverable(texts: seq<string>)
    requires AreCommands(texts)
    ensures Deliverable(Session(texts))
  {
    TerminateShape();
    if texts != [] {
      SessionIsDeliverable(texts[1..]);
    }
  }

  lemma Regrouped(body: string, rest: string, tail: string)
    ensures (body + [NUL] + rest) + tail == body + [NUL] + (rest + tail)
  {
  }

  lemma OverwrittenText(text: string, buffer: string)
    requires NUL in text && |text| <= |buffer|
    ensures CString(Overwrite(buffer, text)) == CString(text)
    ensures Stops(Overwrite(buffer, text)) == Stops(text)
  {
    hide ScanInt, CString;
    var body, rest := SplitAtNul(text);
    var tail := buffer[|text|..];
    Regrouped(body, rest, tail);
    CStringOfTerminated(body, rest + tail);
    CStringOfTerminated(body, rest);
  }

  lemma TerminateStops(buffer: string)
    requires |buffer| == QUEUE_BUFFER_SIZE
    ensures |TerminateText()| <= |buffer|
    ensures Stops(Overwrite(buffer, TerminateText()))
  {
    hide TerminateText, RadioDecode, SpectrumDecode, Stops, Overwrite;
    TerminateRoundTrip(buffer, 0.0, _ => None);
    StopsIsTerminate(Overwrite(buffer, TerminateText()), 0.0, _ => None);
  }

  /** The first texts are what the decodings see, and the decoding after them stops. */
  ghost predicate Sees(decoded: seq<string>, texts: seq<string>) {
    && |decoded| == |texts| + 1
    && (forall k :: 0 <= k < |texts| ==> CString(decoded[k]) == CString(texts[k]))
    && Stops(decoded[|texts|])
  }

  lemma SeesOneMore(contents: string, later: seq<string>, texts: seq<string>)
    requires texts != [] && CString(contents) == CString(texts[0]) && Sees(later, texts[1..])
    ensures Sees([contents] + later, texts)
  {
    hide CString, Stops;
    var decoded := [contents] + later;
    forall k | 0 <= k < |texts| ensures CString(decoded[k]) == CString(texts[k]) {
      if k > 0 {
        assert CString(later[k - 1]) == CString(texts[1..][k - 1]);
      }
    }
  }

  /**
   Whatever the buffer holds at the start and however the lengths of the texts vary,
   the k-th decoding sees exactly the k-th text.
   */
  lemma {:induction false} DecodedTexts(texts: seq<string>, buffer: string)
    requires AreCommands(texts) && |buffer| == QUEUE_BUFFER_SIZE && Deliverable(Session(texts))
    ensures Sees(Decoded(Session(texts), buffer), texts)
    decreases |texts|
  {
    hide CString, TerminateText, Stops, Overwrite;
    if texts == [] {
      TerminateStops(buffer);
    } else {
      var contents := Overwrite(buffer, texts[0]);
      OverwrittenText(texts[0], buffer);
      assert Rest(Rest(Session(texts))) == Session(texts[1..]);
      hide Sees;
      DecodedTexts(texts[1..], contents);
      SeesOneMore(contents, Decoded(Session(texts[1..]), contents), texts);
    }
  }
}
