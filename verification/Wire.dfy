/**
 The text protocol on the message queue: how the coordinator prints commands
 and how the two servers scan them.
 */
module Wire {
  import opened Common
  import opened CText

  // include/R82xxTunerTester.h: message types multiplex one queue.
  datatype MessageType = RadioServerTypeCmd | RadioServerTypeAck | SpectrumServerTypeCmd | SpectrumServerTypeAck

  const CMD_TERMINATE: int := 0
  const RADIO_SERVER_CMD_SET_IF_GAIN: int := 1
  const SPECTRUM_SERVER_CMD_COMPUTE_POWER: int := 2

  const COMMAND_BUFFER_SIZE: nat := 256    // the coordinator's local buffers
  const MESSAGE_TEXT_SIZE: nat := 1024     // messageBuffer.mtext
  const QUEUE_BUFFER_SIZE: nat := 16384    // the servers' long-lived buffers

  // ------------------------------------------------------ what is sent

  /** The octets handed to sendData: the printed text and its NUL. */
  function Terminated(text: string): string {
    Snprintf(COMMAND_BUFFER_SIZE, text) + [NUL]
  }

  function IfGainText(ifGain: int): string {
    Terminated(PrintInt(RADIO_SERVER_CMD_SET_IF_GAIN) + " " + PrintInt(ifGain) + "\n")
  }

  function PowerText(tag: int): string {
    Terminated(PrintInt(SPECTRUM_SERVER_CMD_COMPUTE_POWER) + " " + PrintInt(tag) + "\n")
  }

  function TerminateText(): string {
    Terminated(PrintInt(CMD_TERMINATE) + "\n")
  }

  // --------------------------------------------------- what is understood

  datatype RadioCommand = StopRadio | SetIfGain(ifGain: int) | NoRadioAction

  /** The radio server's decoder, applied to its whole receive buffer. */
  function RadioDecode(buffer: string): RadioCommand {
    var s := CString(buffer);
    match ScanInt(s)
    case None => NoRadioAction
    case Some((opcode, rest)) =>
      if opcode == RADIO_SERVER_CMD_SET_IF_GAIN then
        match ScanInt(SkipSpace(rest))
        case Some((ifGain, _)) => SetIfGain(ifGain)
        case None => NoRadioAction
      else if opcode == CMD_TERMINATE then StopRadio
      else NoRadioAction
  }

  datatype SpectrumCommand = StopSpectrum | ComputePower(tag: int) | NoSpectrumAction

  /** What the C library's %f conversion accepts at a non-blank, non-empty text. */
  type FloatScanner = string -> Option<real>

  /** One %f conversion. At the end of the text it is an input failure. */
  function ScanFloat(s: string, scanner: FloatScanner): Option<real> {
    var t := SkipSpace(s);
    if t == "" then None else scanner(t)
  }

  /**
   The spectrum server's decoder: the command, and the global bandwidth after it.
   A third conversion that succeeds overwrites the bandwidth and, because the
   count is then 3, suppresses the measurement.
   */
  function SpectrumDecode(buffer: string, bandwidth: real, scanner: FloatScanner): (SpectrumCommand, real) {
    var s := CString(buffer);
    match ScanInt(s)
    case None => (NoSpectrumAction, bandwidth)
    case Some((opcode, rest)) =>
      if opcode == SPECTRUM_SERVER_CMD_COMPUTE_POWER then
        match ScanInt(SkipSpace(rest))
        case None => (NoSpectrumAction, bandwidth)
        case Some((tag, rest2)) =>
          match ScanFloat(rest2, scanner)
          case None => (ComputePower(tag), bandwidth)
          case Some(f) => (NoSpectrumAction, f)
      else if opcode == CMD_TERMINATE then (StopSpectrum, bandwidth)
      else (NoSpectrumAction, bandwidth)
  }

  // ------------------------------------------------------------ shape

  lemma PrintedOpcodes()
    ensures PrintInt(CMD_TERMINATE) == "0"
    ensures PrintInt(RADIO_SERVER_CMD_SET_IF_GAIN) == "1"
    ensures PrintInt(SPECTRUM_SERVER_CMD_COMPUTE_POWER) == "2"
  {
    assert Digits(0) == "0";
    assert Digits(1) == "1";
    assert Digits(2) == "2";
  }

  /** A two-field command fits every buffer on its way and is never cut short. */
  lemma TwoFieldShape(opcode: int, argument: int)
    requires opcode == RADIO_SERVER_CMD_SET_IF_GAIN || opcode == SPECTRUM_SERVER_CMD_COMPUTE_POWER
    requires IsInt(argument)
    ensures var body := PrintInt(opcode) + " " + PrintInt(argument) + "\n";
            NUL !in body && Terminated(body) == body + [NUL] && |body| <= 14
  {
    PrintedOpcodes();
    PrintedIntIsShort(argument);
  }

  lemma TerminateShape()
    ensures TerminateText() == "0\n" + [NUL]
  {
    PrintedOpcodes();
  }

  lemma TextsAreShort(n: int)
    requires IsInt(n)
    ensures |IfGainText(n)| <= 15
    ensures |PowerText(n)| <= 15
    ensures |TerminateText()| == 3
  {
    TwoFieldShape(RADIO_SERVER_CMD_SET_IF_GAIN, n);
    TwoFieldShape(SPECTRUM_SERVER_CMD_COMPUTE_POWER, n);
    TerminateShape();
  }

  // -------------------------------------------------------- round trips

  lemma ScanArgument(argument: int)
    ensures ScanInt(SkipSpace(" " + PrintInt(argument) + "\n")) == Some((argument, "\n"))
  {
    var tail := " " + PrintInt(argument) + "\n";
    assert tail[1..] == PrintInt(argument) + "\n";
    assert IsSpace(tail[0]);
    assert SkipSpace(tail) == SkipSpace(tail[1..]);
    ScanSkipsSpace(tail[1..]);
    ScanPrinted(argument, "\n");
  }

  lemma ScanOpcode(opcode: int, argument: int)
    ensures ScanInt(PrintInt(opcode) + " " + PrintInt(argument) + "\n")
         == Some((opcode, " " + PrintInt(argument) + "\n"))
  {
    var tail := " " + PrintInt(argument) + "\n";
    assert PrintInt(opcode) + " " + PrintInt(argument) + "\n" == PrintInt(opcode) + tail;
    assert !IsDigit(tail[0]);
    ScanPrinted(opcode, tail);
  }

  lemma BufferedBody(body: string, buffer: string)
    requires NUL !in body && |body| < |buffer|
    ensures CString(Overwrite(buffer, body + [NUL])) == body
  {
    CStringOfTerminated(body, buffer[|body| + 1..]);
  }

  /** A gain command reads back exactly, whatever the radio server's buffer held before. */
  lemma IfGainRoundTrip(buffer: string, ifGain: int)
    requires IsInt(ifGain) && |buffer| == QUEUE_BUFFER_SIZE
    ensures |IfGainText(ifGain)| <= |buffer|
    ensures RadioDecode(Overwrite(buffer, IfGainText(ifGain))) == SetIfGain(ifGain)
  {
    hide ScanInt, CString, PrintInt, Overwrite, SkipSpace;
    TwoFieldShape(RADIO_SERVER_CMD_SET_IF_GAIN, ifGain);
    ScanOpcode(RADIO_SERVER_CMD_SET_IF_GAIN, ifGain);
    ScanArgument(ifGain);
    BufferedBody(PrintInt(RADIO_SERVER_CMD_SET_IF_GAIN) + " " + PrintInt(ifGain) + "\n", buffer);
  }

  /**
   A power command reads back exactly; the trailing %f meets the end of the text,
   so the count is 2 and the bandwidth stays, whatever the %f scanner accepts.
   */
  lemma PowerRoundTrip(buffer: string, tag: int, bandwidth: real, scanner: FloatScanner)
    requires IsInt(tag) && |buffer| == QUEUE_BUFFER_SIZE
    ensures |PowerText(tag)| <= |buffer|
    ensures SpectrumDecode(Overwrite(buffer, PowerText(tag)), bandwidth, scanner) == (ComputePower(tag), bandwidth)
  {
    hide ScanInt, CString, PrintInt, Overwrite;
    TwoFieldShape(SPECTRUM_SERVER_CMD_COMPUTE_POWER, tag);
    ScanOpcode(SPECTRUM_SERVER_CMD_COMPUTE_POWER, tag);
    ScanArgument(tag);
    BufferedBody(PrintInt(SPECTRUM_SERVER_CMD_COMPUTE_POWER) + " " + PrintInt(tag) + "\n", buffer);
    assert SkipSpace("\n") == "" by { assert IsSpace("\n"[0]); }
  }

  /** The terminate command stops either server, whatever its buffer held before. */
  lemma TerminateRoundTrip(buffer: string, bandwidth: real, scanner: FloatScanner)
    requires |buffer| == QUEUE_BUFFER_SIZE
    ensures |TerminateText()| <= |buffer|
    ensures RadioDecode(Overwrite(buffer, TerminateText())) == StopRadio
    ensures SpectrumDecode(Overwrite(buffer, TerminateText()), bandwidth, scanner) == (StopSpectrum, bandwidth)
  {
    TerminateShape();
    BufferedBody("0\n", buffer);
    PrintedOpcodes();
    assert "0\n" == PrintInt(CMD_TERMINATE) + "\n";
    ScanPrinted(CMD_TERMINATE, "\n");
  }

  /** The commands as they stand on the queue. */
  lemma TextsInWriting(n: int)
    requires IsInt(n)
    ensures IfGainText(n) == "1 " + PrintInt(n) + "\n" + [NUL]
    ensures PowerText(n) == "2 " + PrintInt(n) + "\n" + [NUL]
    ensures TerminateText() == "0\n" + [NUL]
    ensures IfGainText(3) == "1 3\n" + [NUL] && PowerText(-45) == "2 -45\n" + [NUL]
  {
    PrintedOpcodes();
    TwoFieldShape(RADIO_SERVER_CMD_SET_IF_GAIN, n);
    TwoFieldShape(SPECTRUM_SERVER_CMD_COMPUTE_POWER, n);
    TerminateShape();
    assert Digits(3) == "3";
    assert Digits(45) == "45" by { assert Digits(4) == "4"; }
    TwoFieldShape(RADIO_SERVER_CMD_SET_IF_GAIN, 3);
    TwoFieldShape(SPECTRUM_SERVER_CMD_COMPUTE_POWER, -45);
  }

  // ---------------------------------------------- everything else

  /** A text that starts with any other integer does nothing at either server, whatever follows it. */
  lemma OtherOpcodesDoNothing(contents: string, opcode: int, rest: string, bandwidth: real, scanner: FloatScanner)
    requires CString(contents) == PrintInt(opcode) + rest && (rest == "" || !IsDigit(rest[0]))
    requires opcode != CMD_TERMINATE
    ensures opcode != RADIO_SERVER_CMD_SET_IF_GAIN ==> RadioDecode(contents) == NoRadioAction
    ensures opcode != SPECTRUM_SERVER_CMD_COMPUTE_POWER ==>
      SpectrumDecode(contents, bandwidth, scanner) == (NoSpectrumAction, bandwidth)
  {
    hide ScanInt, CString, PrintInt;
    ScanPrinted(opcode, rest);
  }

  /** A command whose argument does not scan is dropped. */
  lemma MissingArgument(contents: string, opcode: int, rest: string, bandwidth: real, scanner: FloatScanner)
    requires CString(contents) == PrintInt(opcode) + rest && (rest == "" || !IsDigit(rest[0]))
    requires opcode != CMD_TERMINATE && ScanInt(rest) == None
    ensures RadioDecode(contents) == NoRadioAction
    ensures SpectrumDecode(contents, bandwidth, scanner) == (NoSpectrumAction, bandwidth)
  {
    hide ScanInt, CString, PrintInt, SkipSpace;
    ScanPrinted(opcode, rest);
    ScanSkipsSpace(rest);
  }

  /** The decoders in terms of the fields that scan. */
  lemma RadioDecodesFields(contents: string, opcode: int, tail: string, argument: int, rest: string)
    requires ScanInt(CString(contents)) == Some((opcode, tail))
    requires ScanInt(SkipSpace(tail)) == Some((argument, rest))
    ensures opcode == 0 ==> RadioDecode(contents) == StopRadio
    ensures opcode == 1 ==> RadioDecode(contents) == SetIfGain(argument)
  {
    hide ScanInt, CString, SkipSpace;
  }

  lemma SpectrumDecodesFields(contents: string, opcode: int, tail: string, argument: int, rest: string,
                              bandwidth: real, scanner: FloatScanner)
    requires ScanInt(CString(contents)) == Some((opcode, tail))
    requires ScanInt(SkipSpace(tail)) == Some((argument, rest))
    ensures opcode == 0 ==> SpectrumDecode(contents, bandwidth, scanner) == (StopSpectrum, bandwidth)
    ensures opcode == 2 ==>
      var third := ScanFloat(rest, scanner);
      SpectrumDecode(contents, bandwidth, scanner)
        == if third.Some? then (NoSpectrumAction, third.value) else (ComputePower(argument), bandwidth)
  {
    hide ScanInt, CString;
  }

  /**
   A power command with a third field that %f accepts is not carried out, but its third
   field becomes the bandwidth of all later measurements; a third field that %f does not
   accept is ignored.
   */
  lemma ThirdFieldSetsBandwidth(contents: string, tag: int, field: string, bandwidth: real, scanner: FloatScanner)
    requires CString(contents) == PrintInt(SPECTRUM_SERVER_CMD_COMPUTE_POWER) + (" " + (PrintInt(tag) + (" " + field)))
    requires field != "" && !IsSpace(field[0])
    ensures SpectrumDecode(contents, bandwidth, scanner) ==
      match scanner(field) case None => (ComputePower(tag), bandwidth) case Some(f) => (NoSpectrumAction, f)
  {
    var rest2 := " " + field;
    var rest := " " + (PrintInt(tag) + rest2);
    assert !IsDigit(rest[0]) && !IsDigit(rest2[0]) && IsSpace(rest[0]) && IsSpace(rest2[0]);
    assert rest[1..] == PrintInt(tag) + rest2 && rest2[1..] == field;
    assert SkipSpace(rest2) == field && SkipSpace(rest) == SkipSpace(rest[1..]);
    hide ScanInt, CString, PrintInt, SkipSpace, RadioDecode, SpectrumDecode;
    ScanPrinted(SPECTRUM_SERVER_CMD_COMPUTE_POWER, rest);
    ScanPrinted(tag, rest2);
    ScanSkipsSpace(rest[1..]);
    SpectrumDecodesFields(contents, SPECTRUM_SERVER_CMD_COMPUTE_POWER, rest, tag, rest2, bandwidth, scanner);
  }

  lemma ScanBehindSpace(lead: string, n: int, rest: string)
    requires AllSpace(lead) && (rest == "" || !IsDigit(rest[0]))
    ensures ScanInt(lead + (PrintInt(n) + rest)) == Some((n, rest))
    ensures ScanInt(SkipSpace(lead + (PrintInt(n) + rest))) == Some((n, rest))
  {
    hide PrintInt;
    SkipsAllSpace(lead, PrintInt(n) + rest);
    ScanSkipsSpace(lead + (PrintInt(n) + rest));
    ScanSkipsSpace(PrintInt(n) + rest);
    ScanPrinted(n, rest);
  }

  /**
   What else the decoders accept: white space of any kind and length before a field, and any
   text behind the fields they read, as long as the fields stay apart.
   */
  lemma FieldsDecode(contents: string, lead: string, opcode: int, gap: string, argument: int, rest: string,
                     bandwidth: real, scanner: FloatScanner)
    requires CString(contents) == lead + (PrintInt(opcode) + (gap + (PrintInt(argument) + rest)))
    requires AllSpace(lead) && AllSpace(gap) && (gap != "" || argument < 0) && (rest == "" || !IsDigit(rest[0]))
    ensures opcode == 0 ==> RadioDecode(contents) == StopRadio
    ensures opcode == 0 ==> SpectrumDecode(contents, bandwidth, scanner) == (StopSpectrum, bandwidth)
    ensures opcode == 1 ==> RadioDecode(contents) == SetIfGain(argument)
    ensures opcode == 2 && ScanFloat(rest, scanner) == None ==>
      SpectrumDecode(contents, bandwidth, scanner) == (ComputePower(argument), bandwidth)
    ensures opcode == 2 && ScanFloat(rest, scanner).Some? ==>
      SpectrumDecode(contents, bandwidth, scanner) == (NoSpectrumAction, ScanFloat(rest, scanner).value)
  {
    var tail := gap + (PrintInt(argument) + rest);
    assert !IsDigit(tail[0]) by {
      if gap == "" {
        MinusSign(argument);
        assert tail[0] == PrintInt(argument)[0];
      } else {
        assert tail[0] == gap[0];
      }
    }
    hide ScanInt, CString, PrintInt, SkipSpace, RadioDecode, SpectrumDecode;
    ScanBehindSpace(lead, opcode, tail);
    ScanBehindSpace(gap, argument, rest);
    RadioDecodesFields(contents, opcode, tail, argument, rest);
    SpectrumDecodesFields(contents, opcode, tail, argument, rest, bandwidth, scanner);
  }

  /** A terminate command needs no more than its opcode, and a text that starts with no number does nothing. */
  lemma OpcodeAlone(contents: string, lead: string, rest: string, bandwidth: real, scanner: FloatScanner)
    requires AllSpace(lead) && (rest == "" || !IsDigit(rest[0]))
    ensures CString(contents) == lead + ("0" + rest) ==>
      RadioDecode(contents) == StopRadio && SpectrumDecode(contents, bandwidth, scanner) == (StopSpectrum, bandwidth)
    ensures ScanInt(CString(contents)) == None ==>
      RadioDecode(contents) == NoRadioAction && SpectrumDecode(contents, bandwidth, scanner) == (NoSpectrumAction, bandwidth)
  {
    PrintedOpcodes();
    hide ScanInt, CString, PrintInt, SkipSpace;
    ScanBehindSpace(lead, 0, rest);
  }

  // ---------------------------------------------------- stale octets

  /** The C string a server sees does not depend on what its buffer held before. */
  ghost predicate IndependentOfStale(text: string, size: nat)
    requires |text| <= size
  {
    forall older, newer :: |older| == size && |newer| == size ==>
      CString(Overwrite(older, text)) == CString(Overwrite(newer, text))
  }

  lemma {:induction false} SplitAtNul(text: string) returns (body: string, rest: string)
    requires NUL in text
    ensures text == body + [NUL] + rest && NUL !in body
  {
    if text[0] == NUL {
      body, rest := "", text[1..];
    } else {
      assert text == [text[0]] + text[1..];
      body, rest := SplitAtNul(text[1..]);
      body := [text[0]] + body;
    }
  }

  lemma {:induction false} CStringWithoutNul(s: string)
    requires NUL !in s
    ensures CString(s) == s
  {
    if s != "" {
      assert s[0] in s;
      CStringWithoutNul(s[1..]);
    }
  }

  /**
   A message of any content is read independently of stale octets exactly when it
   brings its own NUL or fills the whole buffer. Every command of the coordinator
   brings its NUL, because it sends strlen + 1 octets.
   */
  lemma StaleOctetsHiddenIff(text: string, size: nat)
    requires |text| <= size
    ensures IndependentOfStale(text, size) <==> NUL in text || |text| == size
  {
    if NUL in text {
      var body, rest := SplitAtNul(text);
      forall older: string, newer: string | |older| == size && |newer| == size
        ensures CString(Overwrite(older, text)) == CString(Overwrite(newer, text))
      {
        assert Overwrite(older, text) == body + [NUL] + (rest + older[|text|..]);
        assert Overwrite(newer, text) == body + [NUL] + (rest + newer[|text|..]);
        CStringOfTerminated(body, rest + older[|text|..]);
        CStringOfTerminated(body, rest + newer[|text|..]);
      }
    } else if |text| < size {
      var older: string := seq(size, _ => NUL);
      var newer: string := seq(size, _ => 'x');
      assert older[|text|..] == [NUL] + older[|text| + 1..];
      assert Overwrite(older, text) == text + [NUL] + older[|text| + 1..];
      CStringOfTerminated(text, older[|text| + 1..]);
      CStringWithoutNul(Overwrite(newer, text));
      assert !IndependentOfStale(text, size);
    } else {
      forall older: string, newer: string | |older| == size && |newer| == size
        ensures CString(Overwrite(older, text)) == CString(Overwrite(newer, text))
      {
        assert Overwrite(older, text) == text == Overwrite(newer, text);
      }
    }
  }

  lemma CommandsCarryTheirNul(n: int)
    requires IsInt(n)
    ensures NUL in IfGainText(n) && NUL in PowerText(n) && NUL in TerminateText()
  {
    TwoFieldShape(RADIO_SERVER_CMD_SET_IF_GAIN, n);
    TwoFieldShape(SPECTRUM_SERVER_CMD_COMPUTE_POWER, n);
    TerminateShape();
    assert IfGainText(n)[|IfGainText(n)| - 1] == NUL;
    assert PowerText(n)[|PowerText(n)| - 1] == NUL;
    assert TerminateText()[2] == NUL;
  }
}
