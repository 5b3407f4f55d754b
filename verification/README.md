# The R82xx tuner tester, modelled and verified

The tuner tester measures how the gain of a radio's tuner behaves. Three programs do
it together. The *coordinator* steps through gains and tags; for each measurement it
commands the *radio server* to set a gain, waits for an acknowledgement, commands the
*spectrum server* to measure, and waits again. All of it goes over one System V message
queue, on which only the message type tells the four kinds of traffic apart. The radio
server turns gain commands into text for the radio on a TCP connection. The spectrum
server runs a pipeline that ends in the *spectrum processor*, which computes the power
in a band from a block of IQ samples.

The commands are text in messages, the servers read them from buffers that are never
cleared, and an acknowledgement carries nothing that says what it acknowledges. The
project proves that the measurements come out right all the same.

## The files

| file | what it models |
|---|---|
| Common, CText, Wire | C strings in larger buffers, `%d` in and out, the commands and the two decoders |
| Kernel | the operating system's queue: msgget, msgsnd, msgrcv, msgctl |
| Coordination | the coordinator's schedule, and its program as an automaton of queue calls |
| QueuePort, Coordinator, ModeEquivalence | the coordinator's loops over a queue that answers arbitrarily; the two modes compared |
| Protocol | the three programs and the queue as one interleaved transition system, with removals of the queue from outside |
| ProtocolSafety, ProtocolTranscript | what holds in every reachable state; what travels on the queue |
| ProtocolLiveness, ProtocolFaults | how runs end, what follows a removal from outside, and exactly when one is harmless |
| IpcMessageQueue, TcpClient | the two communication classes, with their buffers |
| ServerSession, RadioStream, RadioServer, SpectrumServer | the server programs, and what reaches the radio |
| ProtocolServers | the processes of the transition system are the programs; what the radio hears |
| Complex, Parseval, BandPower | the transform over exact reals, the shift and the band |
| SpectrumProcessor, SpectrumMeasurement | the spectrum processor's class and the loops of its main program |

How the parts hold together: the loops of `Coordinator.dfy` and of the two server files
are proved to make exactly the calls of a specification function for arbitrary answers of
the queue; the lemmas `CoordinatorRunIsProgram`, `RadioRunIsProgram` and
`SpectrumRunIsProgram` prove that, in every interleaving, the processes of the transition
system are those same functions applied to the answers that the run gave them.

## Hypotheses

* The queue does not exist when a run starts, and there is one process of each kind.
* `startingIfGain`, `endingIfGain`, `startingTag` and `endingTag` are C ints below INT_MAX
  (`Coordination.Valid`): the loops count one past them. Inverted ranges are included.
* The bandwidth given to the spectrum processor is not negative.
* `send` takes at least one octet of what it is offered, and `recv` delivers what arrived. A
  reply of the radio leaves room for a NUL in its buffer of 16384 octets.
* FFTW computes the unnormalised forward transform over a primitive N-th root of unity, out
  of place, and keeps its input. N is any even number up to 2^30.

## Results that are not unconditional

* Both modes make the same queue calls if and only if every power phase of the run succeeds
  (`ModesAgreeIff`): manual mode gives up after a failed power phase, automatic mode goes on.
* All three programs end from every start-up order if and only if at least one measurement is
  scheduled (`AlwaysEndsDoneIff`). With none, the coordinator can remove the queue before a
  server opens it; the server then creates another one and waits on it for ever.
* A removal of the existing queue from outside, at any moment of any run and after any earlier
  removals, leaves every continuation able to end if and only if both servers have opened a
  queue by then and so has the coordinator, unless it has nothing to measure
  (`RemovalIsHarmlessIff`).
* After its queue is gone, manual mode makes at most three more calls (`ManualStopsAfterRemoval`),
  while automatic mode still attempts the whole rest of its schedule (`AutomaticGoesOnAfterRemoval`).
* A message is read independently of older buffer contents if and only if it contains a NUL or
  fills the buffer (`StaleOctetsHiddenIff`). Every command does contain one.
* A power command with a third field that `%f` accepts is not measured but changes the bandwidth
  (`ThirdFieldSetsBandwidth`). The coordinator's commands never have one.
* A block shorter than 2N values leaves the older tail of the transform's input in place
  (`FullBlockForgets`); repeated passes over one block still agree.
* A manual session whose input ends without an 'e' line sends no terminate command
  (`TraceFollowsSchedule`); servers on the queue leave when the coordinator removes it.

Where documentation and code disagree the code is followed: README.txt gives the spectrum
server's bandwidth option as `-B` and a positional file name, the program reads `-b` and `-f`.
README.txt describes the end of a manual session only for 'e'; the end of the input ends it too.

## Model

| member | source | states |
|---|---|---|
| CText.CStringOfTerminated | src/coordinator.cc:146-150 | a text sent with its NUL reads back as that text, whatever stands behind it in the buffer |
| CText.ScanPrinted | src/radioServer.cc:191-199 | scanning a printed int, of any sign, gives it back and stops exactly behind it |
| CText.DigitCharacters | src/coordinator.cc:144 | the ten digits print as 0 to 9 and are read as such |
| CText.DigitsIncrease | src/coordinator.cc:144 | of two printed numbers the larger has more digits, or as many and a larger digit at the first difference: the most significant digit comes first |
| CText.DigitsOfValue | src/coordinator.cc:144 | every digit text without a superfluous zero is exactly how its value is printed |
| CText.DecimalOfConcat | src/radioServer.cc:191-199 | digits count in tens from the right, superfluous zeros included |
| CText.SpaceCharacters | src/radioServer.cc:191-199 | white space is exactly the six characters of the C locale |
| CText.ScanAccepts | src/radioServer.cc:191-199 | white space of any kind, one optional sign and digits scan as that number, and the scan stops behind the last digit |
| CText.ScanRejects | src/radioServer.cc:191-199 | a text with no digit behind the white space and the sign does not scan |
| CText.PrintedIntIsShort | src/coordinator.cc:138-147 | a C int, INT_MIN included, prints in at most eleven octets, none of them NUL |
| Wire.TwoFieldShape | src/coordinator.cc:138-147 | a two-field command is never cut short by its 256-octet buffer and holds no NUL before its end |
| Wire.CommandsCarryTheirNul | src/coordinator.cc:144-150 | strlen + 1 octets are sent, so each of the three commands brings its NUL |
| Wire.TextsInWriting | src/coordinator.cc:144-147 | the three commands octet by octet, such as `1 3` and `2 -45` with a newline and a NUL |
| Wire.IfGainRoundTrip | src/radioServer.cc:191-202 | for every C int, the gain command decodes to that gain, whatever the receive buffer held before |
| Wire.PowerRoundTrip | src/spectrumServer.cc:128-139 | for every C int, the power command decodes to that tag with a count of exactly 2; the `%f` conversion fails, so the bandwidth stays, whatever `%f` would accept elsewhere |
| Wire.TerminateRoundTrip | src/spectrumServer.cc:128-160 | the terminate command stops either server, whatever its receive buffer held before |
| Wire.FieldsDecode | src/spectrumServer.cc:128-160 | both decoders accept white space of any kind and length before a field and any text behind the fields they read |
| Wire.OpcodeAlone | src/radioServer.cc:191-218 | terminate needs no more than its opcode, and a text that starts with no number does nothing |
| Wire.OtherOpcodesDoNothing | src/radioServer.cc:195-228 | a text that starts with any other integer does nothing at either server, whatever follows |
| Wire.MissingArgument | src/spectrumServer.cc:136-149 | a command whose argument does not scan is dropped and leaves the bandwidth alone |
| Wire.ThirdFieldSetsBandwidth | src/spectrumServer.cc:136-149 | a power command with an acceptable third field is not carried out, yet that field becomes the bandwidth of later measurements; an unacceptable one is ignored |
| Wire.StaleOctetsHiddenIff | src/IpcMessageQueue.cc:204-217 | a message of any content is read independently of older buffer contents iff it contains a NUL or fills the buffer |
| Kernel.MsgGet | src/IpcMessageQueue.cc:65-68 | the queue that exists is used unchanged; otherwise an empty one is created under an identifier never used before |
| Kernel.ReceivesTheFirst | src/IpcMessageQueue.cc:204-208 | a receive takes the first message of its type, unchanged, if its text fits the room offered, and otherwise fails and leaves everything as it was |
| Kernel.WaitsForItsType | src/IpcMessageQueue.cc:204-208 | a receive waits exactly while the queue exists and holds no message of its type |
| Kernel.TakingFirst | src/IpcMessageQueue.cc:204-208 | receiving by type takes the first message of that type and keeps the order of every type |
| Kernel.OperationsConserve | src/IpcMessageQueue.cc:99-163 | per type, messages sent are messages taken followed by messages waiting, through each of the four queue operations |
| IpcMessageQueue.IpcMessageQueue.constructor | src/IpcMessageQueue.cc:42-79 | opens the key's queue or creates it, and remembers whether it is the object that removes it |
| IpcMessageQueue.IpcMessageQueue.Delete | src/IpcMessageQueue.cc:99-111 | only the object that is to remove the queue removes it, and then its identifier is dead |
| IpcMessageQueue.IpcMessageQueue.SendData | src/IpcMessageQueue.cc:139-165 | queues exactly the given octets under the given type, independent of the send buffer's older contents; fails iff the queue is gone |
| IpcMessageQueue.IpcMessageQueue.ReceiveData | src/IpcMessageQueue.cc:193-225 | on success the text overwrites the front of the caller's buffer and the rest stays; a failure or a zero-length message changes nothing in it |
| IpcMessageQueue.SendThenReceive | src/IpcMessageQueue.cc:139-225 | a message sent while none of its type waits is the next one received, unchanged, and the other messages stay as they were |
| Coordination.WrapIsModulo | src/coordinator.cc:502-526 | counting up and wrapping is counting modulo the length of the range, inverted ranges included |
| Coordination.RoundAdvances | src/coordinator.cc:492-526 | a whole round takes gain and tag from measurement i to measurement i + 1 of the closed form, in both modes although they wrap at different points |
| Coordination.TraceFollowsSchedule | src/coordinator.cc:481-609 | while the queue answers, the coordinator's calls are exactly one round per scheduled measurement with the gains and tags of the closed form, then the two terminate commands and the removal |
| CoordinatorProgram.SendIfGainCommand | src/coordinator.cc:131-154 | exactly one gain command of the wire format is sent, and its outcome returned |
| CoordinatorProgram.SendPowerCommand | src/coordinator.cc:182-205 | exactly one power command of the wire format is sent, and its outcome returned |
| CoordinatorProgram.SendTerminateCommand | src/coordinator.cc:231-252 | exactly one terminate command is sent, and its outcome returned |
| CoordinatorProgram.WaitForServerAck | src/coordinator.cc:276-289 | exactly one receive of the given type is made, and its outcome returned |
| CoordinatorProgram.GainPhase | src/coordinator.cc:574-580 | the acknowledgement is awaited only if the command was sent; the calls are the automaton's |
| CoordinatorProgram.PowerPhase | src/coordinator.cc:585-591 | the same for the power phase, with the automaton's next state decided by the phase's outcome |
| CoordinatorProgram.StopServers | src/coordinator.cc:602-603 | both terminate commands are sent, the second one also when the first one fails, and no acknowledgement is awaited |
| CoordinatorProgram.RunManual | src/coordinator.cc:481-609 | for every input and every answer of the queue, the manual loop makes exactly the automaton's calls and then removes the queue |
| CoordinatorProgram.RunAutomatic | src/coordinator.cc:570-609 | the same for the automatic loop |
| ModeEquivalence.ModesAgreeIff | src/coordinator.cc:481-603 | automatic mode makes the same calls as manual mode fed one 'm' line per tag and then 'e', with any other lines between, iff every power phase succeeds |
| ModeEquivalence.ManualStopsSoon | src/coordinator.cc:511-563 | from any state of manual mode and for any outcomes, at most three calls follow those that the given outcomes answer, however many lines remain |
| ModeEquivalence.AutomaticGoesOn | src/coordinator.cc:570-609 | when every call fails, automatic mode still makes exactly the gain and the power command of every remaining measurement, with the scheduled gains and tags, then both terminate commands and the removal |
| ProtocolSafety.ReachableInv | src/coordinator.cc:460-609 | an invariant of every state that any interleaving with any removals reaches |
| ProtocolSafety.SequentialLogClosedForm | src/coordinator.cc:570-599 | the sequential program's i-th measurement has gain L + i mod max(1, U-L+1), and tag S + i in automatic, S + i mod max(1, E-S+1) in manual mode |
| ProtocolSafety.LogRefinesSimpleLoop | src/coordinator.cc:570-599 | in every interleaving, start-up order and mode, and with removals at any moments, the spectrum server's log is a prefix of the sequential program's: each tag in its turn, measured at exactly its own gain and with the starting bandwidth |
| ProtocolSafety.GainsFollowSchedule | src/radioServer.cc:446-473 | the gains commanded to the radio are the scheduled ones in order, at most one ahead of the log |
| ProtocolSafety.MeasuringMeansOneQueue | src/IpcMessageQueue.cc:65-77 | whatever the start-up order, once a measurement is made all three programs use one queue identifier |
| ProtocolSafety.StopAndWait | src/coordinator.cc:574-609 | until termination at most one message is queued or command in processing, the queue never holds more than two messages, and when the coordinator removes the queue no server is inside a gain or power command or has an acknowledgement outstanding |
| ProtocolTranscript.TranscriptIsSequential | src/coordinator.cc:570-603 | in every interleaving what was put on the queue is a prefix of one fixed transcript, and what was taken is that prefix or all but its last message |
| ProtocolTranscript.AcksAnswerCommands | src/coordinator.cc:574-591 | in every reachable state, the k-th acknowledgement put on the queue directly follows the k-th command and comes from its server, and it is there only after that gain was given to the radio or that measurement was made |
| ProtocolTranscript.RunConserves | src/IpcMessageQueue.cc:139-225 | over every run, per type, messages sent are messages taken followed by messages waiting |
| ProtocolTranscript.RunFollowsProgram | src/coordinator.cc:460-609 | from any point of any run, the coordinator's calls so far and to come are those of its program, given the answers so far and to come |
| ProtocolTranscript.CompletedRunIsProgram | src/coordinator.cc:460-609 | a coordinator that has exited has made exactly its program's calls on the answers it got |
| ProtocolLiveness.StepDecreases | src/coordinator.cc:570-609 | every step of every program and every removal lowers one measure of the whole system |
| ProtocolLiveness.RunsAreBounded | src/coordinator.cc:570-609 | no run, however scheduled and disturbed, takes more steps than the measure of its first state |
| ProtocolLiveness.RunsEndDone | src/IpcMessageQueue.cc:99-111 | with a measurement scheduled and removals only after start-up, a run that can go no further has all three programs exited and no queue, whether a server left by Terminate or by a failed receive |
| ProtocolLiveness.RemovedForGood | src/IpcMessageQueue.cc:154-221 | after the removal every later send and receive on that identifier fails, for ever |
| ProtocolLiveness.UndisturbedRunsComplete | src/coordinator.cc:570-609 | an undisturbed run that can go no further has ended everywhere and written the sequential program's whole log |
| ProtocolLiveness.AlwaysEndsDoneIff | src/IpcMessageQueue.cc:65-77 | undisturbed runs end everywhere from every start-up order iff at least one measurement is scheduled |
| ProtocolLiveness.RunToTheEnd | src/coordinator.cc:481-609 | from every state the programs alone can be run until none of them can move |
| ProtocolFaults.RunWithoutQueue | src/coordinator.cc:460-609 | once its queue is gone, even if another queue takes the key, the coordinator's calls in any continuation are exactly its program's with every call failing |
| ProtocolFaults.ManualStopsAfterRemoval | src/coordinator.cc:511-563 | in any run and continuation of manual mode, at most three calls follow the loss of the queue, and the last call of a session still going is the removal |
| ProtocolFaults.AutomaticGoesOnAfterRemoval | src/coordinator.cc:570-609 | in any run and continuation of automatic mode, the calls that follow the loss of the queue are exactly the receive already due, if any, the commands of the remaining schedule, both terminate commands and the removal |
| ProtocolFaults.RemovalIsHarmlessIff | src/IpcMessageQueue.cc:65-109 | in any state of any run in which the queue exists, with earlier removals and empty schedules included, removing it from outside leaves every continuation able to end everywhere iff both servers have opened a queue and the coordinator has, or has nothing to measure |
| ServerSession.OneAckPerText | src/radioServer.cc:446-473 | for arbitrary payloads, malformed and unknown ones included, and failures at any call, receives and payload-free acknowledgements alternate, with exactly one acknowledgement per text received that is not terminate |
| ServerSession.TerminateIsLast | src/spectrumServer.cc:329-347 | nothing is decoded after a terminate command |
| ServerSession.DecodedTexts | src/radioServer.cc:449-456 | for any sequence of texts of varying lengths and any first buffer contents, the k-th decoding sees exactly the k-th text |
| RadioServerProgram.SendRadioCommand | src/radioServer.cc:124-158 | the whole command reaches the radio, and the NUL behind the reply is inside the buffer |
| RadioServerProgram.SetUpRadio | src/radioServer.cc:410-421 | the radio is given the set-up script, line by line and in order, whose lines `ScriptInWriting` spells out |
| RadioServerProgram.DecodeMessageQueueCommand | src/radioServer.cc:180-234 | a complete gain command gives the radio that gain's line and nothing else does; only terminate stops the loop |
| RadioServerProgram.Serve | src/radioServer.cc:446-473 | for arbitrary answers of the queue, the loop makes the calls of a session and gives the radio what the decoded texts say |
| RadioServerProgram.SessionDrivesRadio | src/radioServer.cc:204-209 | sent the gain commands of any list of C ints and then terminate, the server gives the radio one gain line per entry, in order |
| SpectrumServerProgram.SpectrumServer.DecodeMessageQueueCommand | src/spectrumServer.cc:117-173 | the pipeline runs only for a count of exactly 2, with the global bandwidth; a third field overwrites the bandwidth and suppresses the run |
| SpectrumServerProgram.SpectrumServer.Serve | src/spectrumServer.cc:322-349 | for arbitrary answers of the queue, the loop makes the calls of a session and runs the pipelines that the decoded texts say, each with the bandwidth of that moment |
| SpectrumServerProgram.SessionRunsPipelines | src/spectrumServer.cc:134-149 | sent the power commands of any list of C ints and then terminate, the server runs the pipeline once per entry, in order, always with its starting bandwidth |
| ProtocolServers.CoordinatorRunIsProgram | src/coordinator.cc:276-289 | in every run every text the coordinator receives is empty, so it fits the 80 octets offered, and a coordinator that has exited has made exactly its program's calls on the answers of the run |
| ProtocolServers.RadioRunIsProgram | src/radioServer.cc:446-473 | in every state of every run, what the radio server program gives the radio on the answers so far is the gains of the run, and the text of one command more while that command is at hand |
| ProtocolServers.SpectrumRunIsProgram | src/spectrumServer.cc:322-349 | in every state of every run, what the spectrum server program runs on the answers so far is the log of the run, and one run more while its command is at hand |
| ProtocolServers.RadioHearsTheLog | src/radioServer.cc:410-473 | end to end, in every state of every run and with any removals: split at its newlines, the octet stream that the radio server program gives the radio sets gain 0 and then the scheduled gains in order, those that the log records and at most one more |
| TcpClient.TcpClient.SendData | src/TcpClient.cc:167-203 | however `send` splits the writes, the peer gets the whole buffer once and in order, with sent + remaining constant throughout |
| TcpClient.TcpClient.ReadAvailable | src/TcpClient.cc:254-282 | one pass moves one piece, of at most the length offered, behind what was read before, or ends the reading at a timeout |
| TcpClient.TcpClient.ReceiveData | src/TcpClient.cc:226-288 | everything up to the first timeout stands at the front of the buffer, in order, and the rest of the buffer is untouched, also when the whole reply is longer than what each `recv` is offered |
| RadioStream.GainStreamReadsBack | src/radioServer.cc:204-209 | splitting a stream of gain commands at its newlines and scanning each line gives the gains back |
| RadioStream.StreamCarriesGains | src/radioServer.cc:410-421 | the same with the setup script in front, which sets the gain once, to 0, and nothing else that reads as a gain |
| RadioStream.ScriptInWriting | src/radioServer.cc:410-421 | the eight lines of the script, character by character, with the frequency at the end of the last one |
| RadioStream.GainLines | src/radioServer.cc:204-206 | each line of a gain stream is `set rxifgain `, the printed gain, and nothing else |
| RadioStream.StreamTunesOnce | src/radioServer.cc:410-421 | of all lines the radio gets, the script's and those of any gains, exactly one tunes it, and to the frequency asked for |
| Parseval.ParsevalIdentity | src/SpectrumProcessor.cc:262-263 | over an abstract primitive N-th root of unity, the energy of all bins is N times the energy of the input |
| Parseval.ToneInItsBin | src/SpectrumProcessor.cc:262-263 | a pure tone lands in its own bin, with magnitude N, and leaves nothing in any other |
| BandPower.ShiftIsInvolution | src/SpectrumProcessor.cc:113-118 | the shift is its own inverse for every even N and puts signed frequency f at index N/2 + f |
| BandPower.ShiftKeepsBins | src/SpectrumProcessor.cc:280-293 | the store loop's order is a permutation: the same powers, each as often as before |
| BandPower.ShiftKeepsTotal | src/SpectrumProcessor.cc:280-293 | the shift keeps the sum of all powers |
| BandPower.LoopSumsBand | src/SpectrumProcessor.cc:187-200 | the sum over the shifted indices is the sum over exactly the bins with min(k, N-k) < span, each once: 2 * span - 1 of them, or none when span is 0 |
| BandPower.BandIsMonotone | src/SpectrumProcessor.cc:196-200 | a wider band never has less power, and no band more than the whole spectrum |
| BandPower.WidestBand | src/SpectrumProcessor.cc:175-200 | at half the sample rate the band is the whole spectrum less exactly the Nyquist bin, which is at shifted index 0 |
| BandPower.SpanIsWholeBins | src/SpectrumProcessor.cc:175-185 | the span is the number of whole bins in the bandwidth, clipped at half the sample rate: one bin more would exceed it |
| BandPower.SpanBounds | src/SpectrumProcessor.cc:175-185 | the span is that number of whole bins, at most N/2, does not fall when the bandwidth grows, and is N/2 from half the sample rate on |
| SpectrumProcessor.PowersSumToEnergy | src/SpectrumProcessor.cc:265-293 | with the division by N, the powers of all bins add up to the energy of the windowed input |
| SpectrumProcessor.BandPowerBounds | src/SpectrumProcessor.cc:163-204 | band power is nonnegative, monotone in the bandwidth, at most the energy of the windowed input, and from half the sample rate on that energy less the Nyquist bin |
| SpectrumProcessor.ToneInPlace | src/SpectrumProcessor.cc:265-293 | a tone at a signed frequency f is a single peak of power N at index N/2 + f of the spectrum |
| SpectrumProcessor.ToneInBand | src/SpectrumProcessor.cc:163-204 | a tone counts in full towards the band power if its frequency is less than the span from the centre, and not at all otherwise |
| SpectrumProcessor.WindowedByArithmetic | src/SpectrumProcessor.cc:249-259 | real and imaginary part of entry j are octets 2j and 2j + 1, read as signed, each times window coefficient j |
| SpectrumProcessor.StoringTwiceIsOnce | src/SpectrumProcessor.cc:249-259 | filling the input with the same block again changes nothing, the part behind a short block included |
| SpectrumProcessor.FullBlockForgets | src/SpectrumProcessor.cc:249-259 | a full block removes every trace of what the input held before; a shorter one does not |
| SpectrumProcessor.SpectrumProcessor.constructor | src/SpectrumProcessor.cc:32-59 | a nonpositive sample rate becomes 256000, the bin resolution is the rate divided by N, and the shift table is complete |
| SpectrumProcessor.SpectrumProcessor.InitializeFftw | src/SpectrumProcessor.cc:109-118 | the loop over one half fills every entry of the table with the shift |
| SpectrumProcessor.SpectrumProcessor.FillInput | src/SpectrumProcessor.cc:238-259 | each IQ pair goes to its entry, each component times the window coefficient of that entry; entries behind the block stay |
| SpectrumProcessor.SpectrumProcessor.StoreSpectrum | src/SpectrumProcessor.cc:268-293 | every entry of the spectrum is written, with the normalised power of the bin that the shift puts there |
| SpectrumProcessor.SpectrumProcessor.ComputePowerSpectrum | src/SpectrumProcessor.cc:229-298 | the spectrum is the shifted normalised power of the windowed input's transform, and the number of pairs is returned |
| SpectrumProcessor.SpectrumProcessor.SumBins | src/SpectrumProcessor.cc:196-200 | the loop sums the entries of the index range, and none when the span is 0 |
| SpectrumProcessor.SpectrumProcessor.ComputeSpectralPower | src/SpectrumProcessor.cc:163-204 | for every nonnegative bandwidth no unsigned index wraps and all are in range, the result is the sum over exactly the bins in the band, and the spectrum is left in its buffer |
| SpectrumMeasurement.ConvertedIsCentred | src/spectrumProcessor.cc:235-242 | the in-place signed subtraction, with its wrap-around, adds 128 to the octet modulo 256, reads back as the unsigned sample minus 128, and done twice undoes itself |
| SpectrumMeasurement.SamplesByArithmetic | src/spectrumProcessor.cc:235-242 | with the option for unsigned samples every octet read moves by 128 modulo 256; without it, and behind the count, none changes |
| SpectrumMeasurement.ConvertUnsigned | src/spectrumProcessor.cc:235-242 | every sample read is centred exactly once and nothing behind the count is touched |
| SpectrumMeasurement.MeasureBlock | src/spectrumProcessor.cc:226-264 | the mean over any positive number of passes is the power of one pass, and the transform's input and the spectrum are those of one pass; an empty block prints nothing, and no passes at all is a quotient of zeros |

## Left out

- Command-line parsing, usage texts, keyPressed and console output: user interface.
- Creation of the key and the queue failing (`ftok`, `msgget`), and signals: a program that cannot open the queue exits at once.
- Reuse of queue identifiers: the model's kernel never issues one twice, POSIX does not exclude it.
- `msgsnd` waiting for room: at most two short messages are ever queued (`StopAndWait`).
- Making the connection, the welcome message, delays, and the timing of `select`: a timeout is the end of a burst of input.
- `send` and `recv` returning -1 or 0: the loops of src/TcpClient.cc do not test for it.
- The number that `%.0f` prints for the frequency is a parameter (no float fills the 100 octets it is printed into), as are the texts that `%f` accepts.
- Decimal fields outside the range of int: C leaves `%d` undefined there, the model scans the mathematical integer.
- The shell pipeline that `system` runs, netcat and the file system: one atomic step that records gain, tag and bandwidth.
- The Hanning coefficients, FFTW's algorithm, float and double rounding, log10 and `%0.2f`: the window is an arbitrary array of reals and arithmetic is exact.
- SpectrumProcessor.FftwExecute: models the library's specification, not its code.
- SpectrumMeasurement.MeasureBlock: a mean over no passes is a case of its own result type instead of a NaN.
- IpcMessageQueue.IpcMessageQueue.ReceiveData: a call that would block returns with `blocked` set and nothing changed; the waiting itself is in the transition system.
- test/radioClient.cc and test/spectrumClient.cc: projections of the coordinator's manual loop on one server.
- rapidPrototype, data, originalBuildScripts and the Makefile: earlier demonstrations, measurement results and build files.
