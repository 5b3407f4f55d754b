/** src/spectrumServer.cc: carry out measurement commands until told to stop. */
module SpectrumServerProgram {
  import opened Common
  import opened CText
  import opened Wire
  import opened Coordination
  import opened QueuePort
  import opened ServerSession

  /** One run of the measurement pipeline: the tag and the bandwidth on its command line. */
  datatype PipelineRun = PipelineRun(tag: int, bandwidthInHz: real)

  /** The program's global variable, what system() has run, and the C library's %f. */
  class SpectrumServer {
    var bandwidthInHz: real
    var runs: seq<PipelineRun>
    const scanner: FloatScanner

    constructor (bandwidthInHz: real, scanner: FloatScanner)
      ensures this.bandwidthInHz == bandwidthInHz && runs == [] && this.scanner == scanner
    {
      this.bandwidthInHz := bandwidthInHz;
      this.runs := [];
      this.scanner := scanner;
    }

    /**
     Decodes the receive buffer. The scan writes the global bandwidth directly; a
     command with exactly two fields runs the pipeline with the bandwidth it finds.
     */
    method DecodeMessageQueueCommand(queueBuffer: array<char>) returns (terminate: bool)
      modifies this
      ensures var (command, bandwidth) := SpectrumDecode(queueBuffer[..], old(bandwidthInHz), scanner);
              && terminate == command.StopSpectrum?
              && bandwidthInHz == bandwidth
              && runs == old(runs) + RunOf(command, bandwidth)
    {
      hide CString, ScanInt, SkipSpace, ScanFloat;
      ghost var (command, bandwidth) := SpectrumDecode(queueBuffer[..], bandwidthInHz, scanner);
      assert runs + [] == runs;
      terminate := false;
      var s := CString(queueBuffer[..]);
      var first := ScanInt(s);
      if first.Some? {
        var (opcode, rest) := first.value;
        if opcode == SPECTRUM_SERVER_CMD_COMPUTE_POWER {
          var count := 1;
          var second := ScanInt(SkipSpace(rest));
          if second.Some? {
            count := 2;
            var third := ScanFloat(second.value.1, scanner);
            if third.Some? {
              count := 3;
              bandwidthInHz := third.value;
            }
          }
          if count == 2 {
            runs := runs + [PipelineRun(second.value.0, bandwidthInHz)];
          }
        } else if opcode == CMD_TERMINATE {
          terminate := true;
        }
      }
    }

    /** The receive loop of main, for arbitrary texts, failures and prior buffer contents. */
    method Serve(queueBuffer: array<char>, queue: QueuePort)
      requires queueBuffer.Length == QUEUE_BUFFER_SIZE && Deliverable(queue.answers)
      modifies queueBuffer, queue, this
      ensures queue.calls == old(queue.calls)
        + SessionCalls(old(queue.answers), old(queueBuffer[..]), SpectrumServerTypeCmd, SpectrumServerTypeAck)
      ensures runs == old(runs)
        + PipelineRuns(Decoded(old(queue.answers), old(queueBuffer[..])), old(bandwidthInHz), scanner)
      ensures bandwidthInHz
           == BandwidthAfter(Decoded(old(queue.answers), old(queueBuffer[..])), old(bandwidthInHz), scanner)
    {
      hide Stops, SpectrumDecode, PipelineRuns, BandwidthAfter, Overwrite, RunOf, SessionCalls, Decoded, Deliverable;
      ghost var calls := queue.calls
        + SessionCalls(queue.answers, queueBuffer[..], SpectrumServerTypeCmd, SpectrumServerTypeAck);
      ghost var all := runs + PipelineRuns(Decoded(queue.answers, queueBuffer[..]), bandwidthInHz, scanner);
      ghost var last := BandwidthAfter(Decoded(queue.answers, queueBuffer[..]), bandwidthInHz, scanner);
      var success, done, length := true, false, 0;
      while !done
        invariant Deliverable(queue.answers)
        invariant !done ==>
          calls == queue.calls + SessionCalls(queue.answers, queueBuffer[..], SpectrumServerTypeCmd, SpectrumServerTypeAck)
        invariant !done ==>
          all == runs + PipelineRuns(Decoded(queue.answers, queueBuffer[..]), bandwidthInHz, scanner)
        invariant !done ==> last == BandwidthAfter(Decoded(queue.answers, queueBuffer[..]), bandwidthInHz, scanner)
        invariant done ==> calls == queue.calls && all == runs && last == bandwidthInHz
        decreases |queue.answers|, !done
      {
        ghost var head, answers := queue.calls, queue.answers;
        OneTurn(answers, queueBuffer[..], SpectrumServerTypeCmd, SpectrumServerTypeAck);
        success, length := queue.ReceiveData(SpectrumServerTypeCmd, queueBuffer);
        PipelinesOfNext(runs, queueBuffer[..], Decoded(Rest(Rest(answers)), queueBuffer[..]), bandwidthInHz, scanner);
        if success {
          StopsIsTerminate(queueBuffer[..], bandwidthInHz, scanner);
          CallsOfNext(head, Receive(SpectrumServerTypeCmd), Send(SpectrumServerTypeAck, ""),
            SessionCalls(Rest(Rest(answers)), queueBuffer[..], SpectrumServerTypeCmd, SpectrumServerTypeAck));
          done := DecodeMessageQueueCommand(queueBuffer);
          if !done {
            success := queue.SendData(SpectrumServerTypeAck, "");
          }
        }
        if !success {
          done := true;
        }
      }
    }
  }

  /** What one decoding runs. */
  function RunOf(command: SpectrumCommand, bandwidth: real): seq<PipelineRun> {
    if command.ComputePower? then [PipelineRun(command.tag, bandwidth)] else []
  }

  /** What a list of decodings runs, each with the bandwidth that the decodings so far have left. */
  function PipelineRuns(decoded: seq<string>, bandwidth: real, scanner: FloatScanner): seq<PipelineRun> {
    if decoded == [] then []
    else
      var (command, b) := SpectrumDecode(decoded[0], bandwidth, scanner);
      RunOf(command, b) + PipelineRuns(decoded[1..], b, scanner)
  }

  function BandwidthAfter(decoded: seq<string>, bandwidth: real, scanner: FloatScanner): real {
    if decoded == [] then bandwidth
    else BandwidthAfter(decoded[1..], SpectrumDecode(decoded[0], bandwidth, scanner).1, scanner)
  }

  lemma PipelinesOfNext(runs: seq<PipelineRun>, contents: string, later: seq<string>, bandwidth: real, scanner: FloatScanner)
    ensures var (command, b) := SpectrumDecode(contents, bandwidth, scanner);
            && runs + PipelineRuns([contents] + later, bandwidth, scanner)
               == (runs + RunOf(command, b)) + PipelineRuns(later, b, scanner)
            && runs + PipelineRuns([contents], bandwidth, scanner) == runs + RunOf(command, b)
            && BandwidthAfter([contents] + later, bandwidth, scanner) == BandwidthAfter(later, b, scanner)
            && BandwidthAfter([contents], bandwidth, scanner) == b
    ensures runs + PipelineRuns([], bandwidth, scanner) == runs
    ensures BandwidthAfter([], bandwidth, scanner) == bandwidth
  {
    hide SpectrumDecode, RunOf;
    var (command, b) := SpectrumDecode(contents, bandwidth, scanner);
    assert ([contents] + later)[1..] == later;
    assert [contents][1..] == [];
    assert RunOf(command, b) + [] == RunOf(command, b);
  }

  // ---------------------------------------- a session with the coordinator

  function PowerTexts(tags: seq<int>): (r: seq<string>)
    ensures |r| == |tags|
  {
    seq(|tags|, i requires 0 <= i < |tags| => PowerText(tags[i]))
  }

  lemma PowerTextBody(tag: int)
    requires IsInt(tag)
    ensures CString(PowerText(tag)) == PrintInt(SPECTRUM_SERVER_CMD_COMPUTE_POWER) + " " + PrintInt(tag) + "\n"
  {
    hide PrintInt, CString;
    TwoFieldShape(SPECTRUM_SERVER_CMD_COMPUTE_POWER, tag);
    var body := PrintInt(SPECTRUM_SERVER_CMD_COMPUTE_POWER) + " " + PrintInt(tag) + "\n";
    assert PowerText(tag) == body + [NUL] + "";
    CStringOfTerminated(body, "");
  }

  lemma NothingAfterNewline(scanner: FloatScanner)
    ensures ScanFloat("\n", scanner) == None
  {
    assert IsSpace("\n"[0]);
    assert SkipSpace("\n") == "";
  }

  lemma PowerTextDecodes(contents: string, tag: int, bandwidth: real, scanner: FloatScanner)
    requires IsInt(tag) && CString(contents) == CString(PowerText(tag))
    ensures SpectrumDecode(contents, bandwidth, scanner) == (ComputePower(tag), bandwidth)
    ensures !Stops(PowerText(tag)) && NUL in PowerText(tag) && |PowerText(tag)| <= 15
  {
    hide PrintInt, ScanInt, SkipSpace, CString, PowerText, ScanFloat;
    PowerTextBody(tag);
    ScanOpcode(SPECTRUM_SERVER_CMD_COMPUTE_POWER, tag);
    ScanArgument(tag);
    NothingAfterNewline(scanner);
    CommandsCarryTheirNul(tag);
    TextsAreShort(tag);
  }

  function Runs(tags: seq<int>, bandwidth: real): seq<PipelineRun> {
    seq(|tags|, i requires 0 <= i < |tags| => PipelineRun(tags[i], bandwidth))
  }

  lemma {:induction false} PipelinesAreRuns(decoded: seq<string>, tags: seq<int>, bandwidth: real, scanner: FloatScanner)
    requires |decoded| == |tags| + 1
    requires forall k :: 0 <= k < |tags| ==> SpectrumDecode(decoded[k], bandwidth, scanner) == (ComputePower(tags[k]), bandwidth)
    requires SpectrumDecode(decoded[|tags|], bandwidth, scanner) == (StopSpectrum, bandwidth)
    ensures PipelineRuns(decoded, bandwidth, scanner) == Runs(tags, bandwidth)
    ensures BandwidthAfter(decoded, bandwidth, scanner) == bandwidth
  {
    hide SpectrumDecode;
    if tags == [] {
      assert decoded[1..] == [];
    } else {
      PipelinesAreRuns(decoded[1..], tags[1..], bandwidth, scanner);
      assert Runs(tags, bandwidth) == [PipelineRun(tags[0], bandwidth)] + Runs(tags[1..], bandwidth);
    }
  }

  lemma StopKeepsBandwidth(contents: string, bandwidth: real, scanner: FloatScanner)
    requires Stops(contents)
    ensures SpectrumDecode(contents, bandwidth, scanner) == (StopSpectrum, bandwidth)
  {
  }

  /**
   A server that is sent the power commands of any list of C ints and then terminate
   runs the pipeline once per list entry, in order, always with the bandwidth it
   started with, whatever its receive buffer held and whatever %f accepts.
   */
  lemma SessionRunsPipelines(tags: seq<int>, buffer: string, bandwidth: real, scanner: FloatScanner)
    requires forall i :: 0 <= i < |tags| ==> IsInt(tags[i])
    requires |buffer| == QUEUE_BUFFER_SIZE
    ensures Deliverable(Session(PowerTexts(tags)))
    ensures var decoded := Decoded(Session(PowerTexts(tags)), buffer);
            && PipelineRuns(decoded, bandwidth, scanner) == Runs(tags, bandwidth)
            && BandwidthAfter(decoded, bandwidth, scanner) == bandwidth
  {
    hide PowerText, CString, Stops, SpectrumDecode;
    var texts := PowerTexts(tags);
    forall i | 0 <= i < |tags|
      ensures !Stops(texts[i]) && NUL in texts[i] && |texts[i]| <= 15
    {
      PowerTextDecodes(texts[i], tags[i], bandwidth, scanner);
    }
    SessionIsDeliverable(texts);
    DecodedTexts(texts, buffer);
    var decoded := Decoded(Session(texts), buffer);
    forall k | 0 <= k < |tags|
      ensures SpectrumDecode(decoded[k], bandwidth, scanner) == (ComputePower(tags[k]), bandwidth)
    {
      assert CString(decoded[k]) == CString(texts[k]);
      PowerTextDecodes(decoded[k], tags[k], bandwidth, scanner);
    }
    StopKeepsBandwidth(decoded[|tags|], bandwidth, scanner);
    PipelinesAreRuns(decoded, tags, bandwidth, scanner);
  }
}
