/**
 The octets that the radio server gives to the radio: the setup script and then
 one line per gain command. Reading the stream line by line gives the gains back.
 */
module RadioStream {
  import opened Common
  import opened CText

  const NEWLINE: char := '\n'
  const RADIO_COMMAND_SIZE: nat := 80
  const GAIN_PREFIX: string := "set rxifgain "

  /** The command for one gain, as it is printed into the decoder's local buffer. */
  function GainCommand(ifGain: int): string {
    Snprintf(RADIO_COMMAND_SIZE, GAIN_PREFIX + PrintInt(ifGain) + "\n")
  }

  /** The same without its newline. */
  function GainLine(ifGain: int): string {
    GAIN_PREFIX + PrintInt(ifGain)
  }

  function GainStream(gains: seq<int>): string {
    if gains == [] then "" else GainCommand(gains[0]) + GainStream(gains[1..])
  }

  const ZERO_GAIN: string := "set rxifgain 0"
  const BEFORE_GAIN: seq<string> := ["set demodmode 0", "enable iqdump", "set agclevel -8"]
  const AFTER_GAIN: seq<string> := ["set rxgain 50", "start receiver", "start ringoscillator 8 48 0"]

  function SetupLines(frequency: string): seq<string> {
    BEFORE_GAIN + ([ZERO_GAIN] + (AFTER_GAIN + [FrequencyLine(frequency)]))
  }

  function FrequencyLine(frequency: string): string {
    "set rxfrequency " + frequency
  }

  function Written(lines: seq<string>): string {
    if lines == [] then "" else lines[0] + "\n" + Written(lines[1..])
  }

  /** What the radio server sends before it opens the queue; `frequency` is printed by the C library. */
  function SetupScript(frequency: string): string {
    Written(SetupLines(frequency))
  }

  // ------------------------------------------------------- reading back

  function NewlineAt(s: string): (i: nat)
    ensures i <= |s|
    ensures i < |s| ==> s[i] == NEWLINE
    ensures forall j :: 0 <= j < i ==> s[j] != NEWLINE
  {
    if s == "" || s[0] == NEWLINE then 0 else 1 + NewlineAt(s[1..])
  }

  /** The complete lines of a stream, without their newlines. */
  function Lines(s: string): seq<string>
    decreases |s|
  {
    var i := NewlineAt(s);
    if i == |s| then [] else [s[..i]] + Lines(s[i + 1..])
  }

  function GainOfLine(line: string): Option<int> {
    if GAIN_PREFIX <= line then
      match ScanInt(line[|GAIN_PREFIX|..])
      case Some((ifGain, _)) => Some(ifGain)
      case None => None
    else None
  }

  /** The gains that a radio reading the lines sets, in order. */
  function GainsOf(lines: seq<string>): seq<int> {
    if lines == [] then []
    else (match GainOfLine(lines[0]) case Some(ifGain) => [ifGain] case None => []) + GainsOf(lines[1..])
  }

  lemma FirstLine(line: string, rest: string)
    requires NEWLINE !in line
    ensures Lines(line + "\n" + rest) == [line] + Lines(rest)
  {
    var s := line + "\n" + rest;
    assert s[|line|] == NEWLINE;
    assert forall j :: 0 <= j < |line| ==> s[j] == line[j] && line[j] in line;
    assert NewlineAt(s) == |line|;
    assert s[..|line|] == line && s[|line| + 1..] == rest;
  }

  lemma DigitsHaveNoNewline(n: nat)
    ensures NEWLINE !in Digits(n)
  {
    forall i | 0 <= i < |Digits(n)| ensures Digits(n)[i] != NEWLINE {
      assert IsDigit(Digits(n)[i]);
    }
  }

  /** A C int's gain command is never cut short, is one line, and means that gain. */
  lemma GainCommandIsOneLine(ifGain: int, rest: string)
    requires IsInt(ifGain)
    ensures Lines(GainCommand(ifGain) + rest) == [GainLine(ifGain)] + Lines(rest)
    ensures GainOfLine(GainLine(ifGain)) == Some(ifGain)
  {
    var line := GainLine(ifGain);
    PrintedIntIsShort(ifGain);
    DigitsHaveNoNewline(if ifGain < 0 then -ifGain else ifGain);
    assert GainCommand(ifGain) == line + "\n";
    FirstLine(line, rest);
    assert line[|GAIN_PREFIX|..] == PrintInt(ifGain) + "";
    ScanPrinted(ifGain, "");
  }

  lemma OneMoreGainLine(line: string, ifGain: int, later: seq<string>)
    requires GainOfLine(line) == Some(ifGain)
    ensures GainsOf([line] + later) == [ifGain] + GainsOf(later)
  {
    hide GainOfLine;
    assert ([line] + later)[1..] == later;
  }

  lemma GainStreamSplits(gains: seq<int>)
    requires gains != []
    ensures GainStream(gains) == GainCommand(gains[0]) + GainStream(gains[1..])
  {
    hide GainCommand;
  }

  lemma NothingHeard()
    ensures GainStream([]) == "" && Lines("") == [] && GainsOf([]) == []
  {
  }

  lemma {:induction false} GainStreamReadsBack(gains: seq<int>)
    requires forall i :: 0 <= i < |gains| ==> IsInt(gains[i])
    ensures GainsOf(Lines(GainStream(gains))) == gains
  {
    hide GainCommand, GainOfLine, GainsOf, Lines, GainLine, IsInt, GainStream;
    if gains == [] {
      NothingHeard();
    } else {
      GainStreamSplits(gains);
      GainCommandIsOneLine(gains[0], GainStream(gains[1..]));
      GainStreamReadsBack(gains[1..]);
      OneMoreGainLine(GainLine(gains[0]), gains[0], Lines(GainStream(gains[1..])));
    }
  }

  predicate AreLines(lines: seq<string>) {
    forall i :: 0 <= i < |lines| ==> NEWLINE !in lines[i]
  }

  lemma {:induction false} WrittenReadsBack(lines: seq<string>, rest: string)
    requires AreLines(lines)
    ensures Lines(Written(lines) + rest) == lines + Lines(rest)
  {
    hide Lines;
    if lines == [] {
      assert "" + rest == rest;
    } else {
      var later := Written(lines[1..]);
      assert Written(lines) + rest == lines[0] + "\n" + (later + rest);
      FirstLine(lines[0], later + rest);
      WrittenReadsBack(lines[1..], rest);
    }
  }

  lemma {:induction false} GainsOfConcat(a: seq<string>, b: seq<string>)
    ensures GainsOf(a + b) == GainsOf(a) + GainsOf(b)
  {
    hide GainOfLine;
    if a == [] {
      assert a + b == b;
    } else {
      assert (a + b)[1..] == a[1..] + b;
      GainsOfConcat(a[1..], b);
    }
  }

  lemma GainsOfOne(line: string)
    ensures GainsOf([line]) == match GainOfLine(line) case Some(ifGain) => [ifGain] case None => []
  {
    assert [line][1..] == [];
  }

  lemma {:induction false} NoGains(lines: seq<string>)
    requires forall i :: 0 <= i < |lines| ==> GainOfLine(lines[i]) == None
    ensures GainsOf(lines) == []
  {
    if lines != [] {
      NoGains(lines[1..]);
    }
  }

  lemma Mismatch(line: string, i: nat)
    requires i < |GAIN_PREFIX| && i < |line| && line[i] != GAIN_PREFIX[i]
    ensures GainOfLine(line) == None
  {
  }

  lemma LinesBeforeGain()
    ensures GainsOf(BEFORE_GAIN) == []
  {
    hide GainOfLine, GainsOf;
    Mismatch(BEFORE_GAIN[0], 4);
    Mismatch(BEFORE_GAIN[1], 0);
    Mismatch(BEFORE_GAIN[2], 4);
    NoGains(BEFORE_GAIN);
  }

  lemma LinesAfterGain()
    ensures GainsOf(AFTER_GAIN) == []
  {
    hide GainOfLine, GainsOf;
    Mismatch(AFTER_GAIN[0], 6);
    Mismatch(AFTER_GAIN[1], 1);
    Mismatch(AFTER_GAIN[2], 1);
    NoGains(AFTER_GAIN);
  }

  lemma FrequencyHasNoGain(frequency: string)
    ensures GainsOf([FrequencyLine(frequency)]) == []
  {
    hide GainOfLine, GainsOf;
    Mismatch(FrequencyLine(frequency), 6);
    NoGains([FrequencyLine(frequency)]);
  }

  lemma ZeroLine()
    ensures GainOfLine(ZERO_GAIN) == Some(0)
  {
    assert PrintInt(0) == "0";
    assert ZERO_GAIN == GainLine(0);
    GainCommandIsOneLine(0, "");
  }

  /** The script sets the gain once, to 0. */
  lemma ScriptGains(frequency: string)
    ensures GainsOf(SetupLines(frequency)) == [0]
  {
    LinesBeforeGain();
    LinesAfterGain();
    FrequencyHasNoGain(frequency);
    ZeroLine();
    GainsOfOne(ZERO_GAIN);
    hide GainOfLine, GainsOf, FrequencyLine;
    var last := [FrequencyLine(frequency)];
    GainsOfConcat(AFTER_GAIN, last);
    GainsOfConcat([ZERO_GAIN], AFTER_GAIN + last);
    GainsOfConcat(BEFORE_GAIN, [ZERO_GAIN] + (AFTER_GAIN + last));
  }

  lemma SetupLinesAreLines(frequency: string)
    requires NEWLINE !in frequency
    ensures AreLines(SetupLines(frequency))
  {
    assert AreLines(BEFORE_GAIN) && AreLines([ZERO_GAIN]) && AreLines(AFTER_GAIN) && AreLines([FrequencyLine(frequency)]);
  }

  /**
   Splitting the radio's stream at its newlines and reading the gain commands gives
   the script's gain 0 followed by the commanded gains, all of them and in order.
   */
  lemma StreamCarriesGains(frequency: string, gains: seq<int>)
    requires NEWLINE !in frequency
    requires forall i :: 0 <= i < |gains| ==> IsInt(gains[i])
    ensures GainsOf(Lines(SetupScript(frequency) + GainStream(gains))) == [0] + gains
  {
    SetupLinesAreLines(frequency);
    ScriptGains(frequency);
    hide SetupLines, GainsOf, Lines;
    WrittenReadsBack(SetupLines(frequency), GainStream(gains));
    GainsOfConcat(SetupLines(frequency), Lines(GainStream(gains)));
    GainStreamReadsBack(gains);
  }

  // ---------------------------------------------------- the radio's tuning

  /** What a line tunes the radio to, as the radio reads it. */
  function FrequencyOfLine(line: string): Option<string> {
    if "set rxfrequency " <= line then Some(line[16..]) else None
  }

  function FrequenciesOf(lines: seq<string>): seq<string> {
    if lines == [] then []
    else (match FrequencyOfLine(lines[0]) case Some(f) => [f] case None => []) + FrequenciesOf(lines[1..])
  }

  lemma {:induction false} FrequenciesOfConcat(a: seq<string>, b: seq<string>)
    ensures FrequenciesOf(a + b) == FrequenciesOf(a) + FrequenciesOf(b)
  {
    hide FrequencyOfLine;
    if a == [] {
      assert a + b == b;
    } else {
      assert (a + b)[1..] == a[1..] + b;
      FrequenciesOfConcat(a[1..], b);
    }
  }

  lemma {:induction false} NoFrequencies(lines: seq<string>)
    requires forall i :: 0 <= i < |lines| ==> FrequencyOfLine(lines[i]) == None
    ensures FrequenciesOf(lines) == []
  {
    if lines != [] {
      NoFrequencies(lines[1..]);
    }
  }

  lemma OtherLine(line: string, i: nat)
    requires i < 16 && i < |line| && line[i] != "set rxfrequency "[i]
    ensures FrequencyOfLine(line) == None
  {
  }

  /** The lines of a gain stream, in writing. */
  lemma {:induction false} GainLines(gains: seq<int>)
    requires forall i :: 0 <= i < |gains| ==> IsInt(gains[i])
    ensures |Lines(GainStream(gains))| == |gains|
    ensures forall i :: 0 <= i < |gains| ==> Lines(GainStream(gains))[i] == "set rxifgain " + PrintInt(gains[i])
  {
    if gains == [] {
      NothingHeard();
    } else {
      assert GainLine(gains[0]) == "set rxifgain " + PrintInt(gains[0]);
      hide GainCommand, Lines, GainLine, IsInt, GainStream, PrintInt;
      GainStreamSplits(gains);
      GainCommandIsOneLine(gains[0], GainStream(gains[1..]));
      GainLines(gains[1..]);
      var later := Lines(GainStream(gains[1..]));
      forall i | 0 <= i < |gains| ensures Lines(GainStream(gains))[i] == "set rxifgain " + PrintInt(gains[i]) {
        if i > 0 {
          assert Lines(GainStream(gains))[i] == later[i - 1];
        }
      }
    }
  }

  lemma GainsDoNotTune(gains: seq<int>)
    requires forall i :: 0 <= i < |gains| ==> IsInt(gains[i])
    ensures FrequenciesOf(Lines(GainStream(gains))) == []
  {
    hide FrequencyOfLine, FrequenciesOf, Lines, GainStream, PrintInt, IsInt;
    GainLines(gains);
    var lines := Lines(GainStream(gains));
    forall i | 0 <= i < |lines| ensures FrequencyOfLine(lines[i]) == None {
      assert lines[i][6] == ("set rxifgain " + PrintInt(gains[i]))[6] == 'i';
      OtherLine(lines[i], 6);
    }
    NoFrequencies(lines);
  }

  lemma LineTunes(frequency: string)
    ensures FrequenciesOf([FrequencyLine(frequency)]) == [frequency]
  {
    var line := FrequencyLine(frequency);
    var lines: seq<string> := [line];
    assert line == "set rxfrequency " + frequency && line[16..] == frequency;
    assert lines[1..] == [];
  }

  /** The lines of the set-up script, in writing. */
  lemma ScriptInWriting(frequency: string)
    ensures SetupLines(frequency) ==
      ["set demodmode 0", "enable iqdump", "set agclevel -8", "set rxifgain 0", "set rxgain 50", "start receiver",
       "start ringoscillator 8 48 0", "set rxfrequency " + frequency]
  {
  }

  lemma ScriptTunes(frequency: string)
    ensures FrequenciesOf(SetupLines(frequency)) == [frequency]
  {
    hide FrequencyOfLine, FrequenciesOf, FrequencyLine;
    var zero, last := [ZERO_GAIN], [FrequencyLine(frequency)];
    OtherLine(BEFORE_GAIN[0], 4);
    OtherLine(BEFORE_GAIN[1], 0);
    OtherLine(BEFORE_GAIN[2], 4);
    NoFrequencies(BEFORE_GAIN);
    OtherLine(ZERO_GAIN, 6);
    NoFrequencies(zero);
    OtherLine(AFTER_GAIN[0], 6);
    OtherLine(AFTER_GAIN[1], 1);
    OtherLine(AFTER_GAIN[2], 1);
    NoFrequencies(AFTER_GAIN);
    LineTunes(frequency);
    FrequenciesOfConcat(AFTER_GAIN, last);
    FrequenciesOfConcat(zero, AFTER_GAIN + last);
    FrequenciesOfConcat(BEFORE_GAIN, zero + (AFTER_GAIN + last));
  }

  /** Of all lines the radio gets, the script's and those of any gains, exactly one tunes it, and to the frequency asked for. */
  lemma StreamTunesOnce(frequency: string, gains: seq<int>)
    requires NEWLINE !in frequency
    requires forall i :: 0 <= i < |gains| ==> IsInt(gains[i])
    ensures FrequenciesOf(Lines(SetupScript(frequency) + GainStream(gains))) == [frequency]
  {
    SetupLinesAreLines(frequency);
    ScriptTunes(frequency);
    GainsDoNotTune(gains);
    hide SetupLines, FrequenciesOf, Lines;
    WrittenReadsBack(SetupLines(frequency), GainStream(gains));
    FrequenciesOfConcat(SetupLines(frequency), Lines(GainStream(gains)));
  }
}
