# DAPHNE V3 slow control: a verified model

This project models the seven parts of the DAPHNE V3 slow-control software whose correctness rests on an
argument rather than on single calls, and proves what each is for. `dafny verify dfyconfig.toml` checks everything.

| Part | Modules |
| --- | --- |
| Chunked spy-buffer transfer: extraction of 14-bit samples, the producer/consumer protocol over a bounded monitor, the client's receive loop, and the files read back | `SpyBuffer`, `SpyDump`, `BoundedQueue`, `ChunkPlan`, `ChunkWrap`, `ChunkTransfer`, `AcquireClient` |
| Otsu thresholding of charge histograms | `Otsu` |
| The table-driven CRC-8 of the ADS1260 current monitor | `Crc8` |
| Shadowed hardware state: DAC pairs behind write-only registers, AFE chips with a readout mode and the command that sets them, the FPGA register file | `DacWord`, `Dac`, `DacDriver`, `Afe`, `AfeTable`, `AfeOffers`, `AfeCommand`, `FpgaRegDict`, `Reg`, `BitField` |
| Front-end alignment: two longest-run searches and the calibration sequence | `LongestRun`, `Alignment` |
| The rolling FFT average | `FftAverage` |
| The LED pulser's register program | `LedPulser` |
| What they share | `Arithmetic`, `Wrappers` |

The outside world appears as parameters. `Snapshots` is what the hardware shows in each waveform, `FrameClock` is the
word a trigger latches at given delay and bitslip, `latch`, `replies` and `status` are what an SSP does with a write, how
it answers and what its PDTS shows, and chip classes hold the registers and DACs behind the drivers. All theorems hold for every such world. Threads are steps of a transition system in which
one critical section of the monitor is one step, and every interleaving, every choice of `notify_one` and every
spurious wakeup is a run. Machine words are bit vectors, counters that wrap in the source wrap here (`Start`, `Reply`),
and spectra and histogram arithmetic are exact reals.

## Main results

- **Transfer.** In every reachable state of the protocol no thread sleeps on a condition that holds, the queue
  stays within its capacity and `pop` gives up only when the queue is closed and drained (`MonitorSafety`). Some thread
  can always move and runs are bounded by the number of chunks and of spurious wakeups (`NeverStuck`,
  `RunsAreBounded`). All but the bound hold even for a request whose loop never ends. What is sent is the planned
  packets in order; if the loop ends on time, all of them when nothing fails and a strict prefix without a final packet
  when the producer throws. Exactly the responses sent before a failure report success (`SuccessIffBeforeFault`).
  `RoundTrip` composes all of it: for any interleaving, once the planned responses are out, the file of each listed
  channel loads as exactly the channel's samples.
- **Calibration.** Each word of a scan belongs to the tap in force when it was latched; the delay ends in the middle of
  the longest stretch of taps showing one word and the bitslip at the first that shows the target word there
  (`AlignAFE`). On a steady link the target word then shows at every trigger exactly if any bitslip could make it
  (`SteadyLinkCalibrated`).
- **Exact conditions where the source is only conditionally right.** The producer's loop ends on time if and only if
  `ceil(N/chunk)*chunk < 2^32` (`LoopEndsOnTimeIff`, `WrapWitness`), and ends at all if and only if N is at most 2^32 less
  the largest power of two dividing the chunk size (`LoopEndsIff`). A channel's file loads as its N waveforms if and only
  if the channel is listed once (`RoundTripIffListedOnce`). A one-reply dump stays inside its buffer if and only if it has
  less than 2^31 words (`StoresInsideIff`, `OverrunWitness`). A DAC write loses the setting of another channel if and
  only if that is a nonzero one on the first DAC of the other chip, not lost already, and the companion of the written
  channel was never set (`SettingLostIff`); after power-up, for any order of writes, only channels 0 and 4 can be lost
  (`OnlyFirstDacsAtRisk`, `FirstDacKeptIff`). An AFE function lands if and only if it is not in register 0 or asks for an all-zero register
  (`SetFieldLandsIff`). The CRC check misses exactly the multiples of the generator (`AcceptedIffMultiple`), so bursts
  of up to eight bits are always seen and nine is one too many (`NineBitBurstMissed`). With a queue of capacity zero
  the protocol deadlocks (`ZeroCapacityDeadlocks`); the source uses two.
- **Fast form against simple form.** Prefix and suffix sums against the definition of within-class deviation
  (`OtsuIsOptimal`), table look-up against polynomial division (`ChecksumIsRemainder`), parallel vector stores against the
  per-sample formula (`AnyInterleaving`, `ExtractParallel`), running sum against recomputed mean (`Worker.Run`), chunks
  against the one-reply dump (`ChunkingPreservesData`), the one-pass client scan against the two-pass driver scan
  (`DriverAndClientAgree`), read-modify-write of words against a map of named fields (`RunRefinesMap`), the client's check
  of a setting against the driver's (`CheckedIffAccepted`).

Some behaviours of the source are worth knowing. Its error message for the sample count of `dumpSpybuffer` says 1-4096
while the code accepts 1-2048; the model follows the code. `dumpSpybuffer` sizes its reply modulo 2^32 and bounds nothing
else, so that a large accepted request is stored past the end. Packets already queued when the producer throws are still sent, with
`success` false although their data are right; the client stops at the first of them (`GoodDataSentAsFailure`,
`FaultCutsHere`). Asking for an unknown DAC channel adds an empty row to `CHANNEL_MAPPING` for good; no later call is
affected (`FindCompanionChannelValue`). The clients spell one AFE function POWER-DOWN_LDVS, which the driver refuses
(`AsShipped`); the older of them lets every number through for a function with a range, and the driver takes its low
16 bits (`LegacyPassesIff`, `AnotherNumberTaken`). The driver restores the bitslip it found when the target word never shows; the
client script leaves the last one it tried (`DriverAndClientAgree`). A five-channel pulser run leaves slots 0 to 6 of the
twelve-channel layout as they were; `stop_run` clears them (`OthersKept`, `StopCoversBothLayouts`).

## Model

| member | source | states |
| --- | --- | --- |
| SpyBuffer.MappedData | srcs/SpyBuffer.hpp:29-34 | every sample read from a word is below 2^14 |
| SpyBuffer.SampleOfWord | srcs/SpyBuffer.hpp:29-34 | even samples are DATAL of their word, odd ones DATAH |
| SpyBuffer.SampleIsField | srcs/FpgaRegDict.cpp:48-55 | a sample is the DATAL or DATAH field of its word, where the register dictionary places it |
| SpyBuffer.StoreBlock | srcs/SpyBuffer.cpp:197-207 | one four-word block writes its eight samples in order and no other element |
| SpyBuffer.StoreRest | srcs/SpyBuffer.cpp:210-222 | the leftover words and the odd tail complete the output and touch nothing else |
| SpyBuffer.ExtractScalar | srcs/SpyBuffer.cpp:80-93 | writes exactly dst[0..n), each equal to the per-sample formula, for every n |
| SpyBuffer.ExtractVector | srcs/SpyBuffer.cpp:95-136 | the same result from four-word blocks, leftovers and odd tail |
| SpyBuffer.ExtractParallel | srcs/SpyBuffer.cpp:180-223 | the same result for every execution order of the parallel block iterations |
| SpyBuffer.UnpackedIsWritten | srcs/SpyBuffer.cpp:80-93 | unpacked words, odd tail and an untouched rest together are the n samples in place |
| SpyBuffer.StoreIsSample | srcs/SpyBuffer.cpp:189-208 | each single lane store of the parallel loop carries the sample of its own place |
| SpyBuffer.EverySampleIsStored | srcs/SpyBuffer.cpp:189-208 | every place of the blocks gets a store |
| SpyBuffer.AnyInterleaving | srcs/SpyBuffer.cpp:188-208 | whatever order the single lane stores of all threads take effect in, the output is the samples and the rest is untouched |
| SpyDump.MapChannelInvertible | srcs/defines.hpp:12-26 | board and PL numbering are inverse, so each board channel has its own PL channel: AFE 0 keeps its place, the other four run backwards |
| SpyDump.FillWave | srcs/DaphneSlowController.cpp:463-470 | one waveform of all channels lands behind the earlier ones, channel after channel, or is found not to fit |
| SpyDump.FillWaves | srcs/DaphneSlowController.cpp:367-375 | all waveforms of all channels fill the buffer in the promised layout exactly if it is long enough |
| SpyDump.FillChunk | srcs/DaphneSlowController.cpp:453-470 | a packet's data are waveforms start to start+count of every channel in the promised layout |
| SpyDump.FillSingle | srcs/DaphneSlowController.cpp:347-357 | the separate single-channel path, with its uint32 offsets, does the same |
| SpyDump.CapacityIsEnoughIff | srcs/DaphneSlowController.cpp:339-339 | the size the reply is given, a uint32 product read as an int, is enough if and only if the dump has less than 2^31 words |
| SpyDump.StoresInsideIff | srcs/DaphneSlowController.cpp:339-376 | every store lies inside the reply if and only if the dump has less than 2^31 words |
| SpyDump.StoreOutside | srcs/DaphneSlowController.cpp:353-374 | for a larger dump some store is past the end |
| SpyDump.OverrunWitness | srcs/DaphneSlowController.cpp:339-339 | an accepted request whose reply has size 0 while 2^32 words are stored |
| SpyDump.Dump | srcs/DaphneSlowController.cpp:322-397 | refuses exactly channels above 39 and sample counts outside 1 to 2048, runs past its reply exactly for dumps of 2^31 words and more, and otherwise returns all waveforms in the promised layout |
| SpyDump.WavesSplit | srcs/DaphneSlowController.cpp:449-470 | the layout of a range of waveforms is the layouts of its two parts end to end |
| SpyDump.WavesPlace | srcs/DaphneSlowController.cpp:372-373 | channel k of waveform w starts at the row-major place (w*C + k)*L |
| SpyDump.ParsedIs | client/waveparse.py:17-28 | any reply shorter than announced is refused, any other is read in row-major order; a missing waveform count stands for one |
| SpyDump.ParsedDumpIndex | client/waveparse.py:17-28 | element (w, k, n) of the parsed reply is sample n of channel k of waveform w, and the reply is never too short |
| BoundedQueue.Monitor.constructor | srcs/DaphneSlowController.cpp:72-72 | a new queue is empty, open and has nobody waiting |
| BoundedQueue.Monitor.Push | srcs/DaphneSlowController.cpp:74-82 | one pass through push: sleep when full and open, drop when closed, else append and notify one |
| BoundedQueue.Monitor.Pop | srcs/DaphneSlowController.cpp:84-94 | one pass through pop: sleep when empty and open, false when closed and drained, else take the oldest and notify one |
| BoundedQueue.Monitor.Close | srcs/DaphneSlowController.cpp:96-101 | closes and wakes every waiter |
| BoundedQueue.PickOne | srcs/DaphneSlowController.cpp:81-81 | notify_one wakes some waiter if there is one and no second one |
| ChunkPlan.Validate | srcs/DaphneSlowController.cpp:411-425 | accepts exactly the requests within the five limits, and names the first limit a refused one breaks |
| ChunkPlan.BuildPacket | srcs/DaphneSlowController.cpp:449-470 | one loop turn makes the planned packet |
| ChunkPlan.StartIsProduct | srcs/DaphneSlowController.cpp:449-449 | before the ceil(N/chunk)-th turn the uint32 start is k*chunk and below N |
| ChunkPlan.LoopEndsOnTimeIff | srcs/DaphneSlowController.cpp:449-449 | the loop ends after ceil(N/chunk) turns if and only if ceil(N/chunk)*chunk fits a uint32; otherwise it starts over below chunk |
| ChunkPlan.WrapWitness | srcs/DaphneSlowController.cpp:449-449 | an accepted request whose start wraps to 0 |
| ChunkWrap.StartIsRemainder | srcs/DaphneSlowController.cpp:449-449 | wf_start is the running multiple of the chunk size modulo 2^32 |
| ChunkWrap.StartStaysBelow | srcs/DaphneSlowController.cpp:449-449 | wf_start never comes closer to 2^32 than the largest power of two dividing the chunk size |
| ChunkWrap.StartGetsClose | srcs/DaphneSlowController.cpp:449-449 | some turn brings it exactly that close |
| ChunkWrap.LoopEndsIff | srcs/DaphneSlowController.cpp:449-449 | the loop ends at all, wrapped or not, if and only if N is at most 2^32 less that power of two |
| ChunkPlan.PlanTiles | srcs/DaphneSlowController.cpp:449-485 | packets are numbered 0, 1, 2, ..., their ranges tile [0, N) without gap or overlap, only the last reaches N |
| ChunkPlan.ChunkingPreservesData | srcs/DaphneSlowController.cpp:449-472 | the data of the packets, end to end, are the monolithic layout of the waveforms covered so far, and in the end of all N |
| ChunkPlan.ChunksEqualDump | srcs/DaphneSlowController.cpp:322-397 | for the same snapshots dumpSpybuffer returns exactly the concatenated chunk data if they number less than 2^31, and overruns its reply if not |
| ChunkTransfer.InvInit | srcs/DaphneSlowController.cpp:440-446 | the initial state satisfies the protocol invariant |
| ChunkTransfer.InvNext | srcs/DaphneSlowController.cpp:446-502 | every step of either thread, a fault and every spurious wakeup keep the invariant, for any accepted request |
| ChunkTransfer.OrderNext | srcs/DaphneSlowController.cpp:471-499 | what was sent plus what is in flight stays the planned packets in order, none lost or doubled |
| ChunkTransfer.FlagsNext | srcs/DaphneSlowController.cpp:441-482 | a response sent reports success exactly if the producer has not failed by then, so unsuccessful ones appear only after a failure and never before a successful one |
| ChunkTransfer.ReachableInv | srcs/DaphneSlowController.cpp:440-502 | the invariant holds in every reachable state |
| ChunkTransfer.MonitorSafety | srcs/DaphneSlowController.cpp:64-102 | no lost wakeup, capacity never exceeded, pop false only when closed and drained, in every reachable state |
| ChunkTransfer.AnythingCanHappen | srcs/DaphneSlowController.cpp:446-477 | the runs include a failure whenever the producer is awake with work left, and every spurious wakeup |
| ChunkTransfer.IterationBounded | srcs/DaphneSlowController.cpp:449-472 | if the loop ends on time it makes no more packets than planned |
| ChunkTransfer.SentInOrder | srcs/DaphneSlowController.cpp:480-500 | response i is packet i of the plan, even after a wrap; the first ceil(N/chunk) are numbered and only their last is final; there are no more if the loop ends on time |
| ChunkTransfer.SentFields | srcs/DaphneSlowController.cpp:480-499 | every response repeats total, sample count and channel list of the request; response i carries waveforms i*chunk up to the next multiple or N, in the promised layout |
| ChunkTransfer.FaultFreeSendsAll | srcs/DaphneSlowController.cpp:446-502 | a fault-free request that returned sent all ceil(N/chunk) packets, all successful, and no more if the loop ends on time |
| ChunkTransfer.FaultSendsStrictPrefix | srcs/DaphneSlowController.cpp:473-476 | if the producer throws, a strict prefix is sent and no response is final |
| ChunkTransfer.FailureFlagIsSticky | srcs/DaphneSlowController.cpp:482-482 | once a response is unsuccessful all later ones are |
| ChunkTransfer.SuccessIffBeforeFault | srcs/DaphneSlowController.cpp:474-482 | in every run with a failure, exactly the responses sent before it report success |
| ChunkTransfer.FaultIsAThrow | srcs/DaphneSlowController.cpp:473-475 | the failure flag is up exactly if the producer has thrown |
| ChunkTransfer.GoodDataSentAsFailure | srcs/DaphneSlowController.cpp:473-482 | for any request of two chunks or more: a run that sends the first packet, data intact, as a failure |
| ChunkTransfer.NeverStuck | srcs/DaphneSlowController.cpp:74-101 | in every reachable unfinished state some thread can move without a spurious wakeup or a fault |
| ChunkTransfer.WorkDecreases | srcs/DaphneSlowController.cpp:446-502 | every step but a spurious wakeup lowers the remaining work |
| ChunkTransfer.RunsAreBounded | srcs/DaphneSlowController.cpp:446-502 | a run has at most 6*chunks + 8 steps plus two per spurious wakeup |
| ChunkTransfer.ZeroCapacityDeadlocks | srcs/DaphneSlowController.cpp:440-440 | with capacity zero a state is reachable from which only spurious wakeups can happen |
| AcquireClient.NarrowingIsLossless | client/protobuf_acquire_list_channels.py:330-330 | the uint16 file keeps exactly the numbers of 16 bits, signed or not as they are read; a 14-bit sample survives either way |
| AcquireClient.WidenMeaning | client/led_charge.py:47-50 | a value is read as itself, or as its two's complement if read signed |
| AcquireClient.Acquisition.constructor | client/protobuf_acquire_list_channels.py:303-304 | opening keeps or empties each listed file as asked |
| AcquireClient.Acquisition.WriteChunk | client/protobuf_acquire_list_channels.py:323-331 | appends to each listed file its column of the payload |
| AcquireClient.Acquisition.Receive | client/protobuf_acquire_list_channels.py:305-334 | files, waveform count and outcome are those of the specified fold over the responses |
| AcquireClient.WhyItStopped | client/protobuf_acquire_list_channels.py:305-334 | for any stream: the loop reads up to the first response that fails, cannot be reshaped or is final, reports which, and counts the waveforms stored |
| AcquireClient.ColumnOfWaves | client/protobuf_acquire_list_channels.py:326-330 | demultiplexing a block undoes the server's interleaving |
| AcquireClient.ReceivePlanned | client/protobuf_acquire_list_channels.py:305-334 | after planned responses a file has gained exactly its channel's waveforms of the leading successful ones; a server error exactly if some response failed, completion exactly on the last packet |
| AcquireClient.LoadedIs | client/led_charge.py:38-54 | any file: refused exactly if it does not hold whole waveforms; otherwise the first max_waves are read, or all, value by value |
| AcquireClient.LoadOfChannelWaves | client/led_charge.py:38-54 | a file of N waveforms loads as exactly those samples in order, or as the first max_waves of them |
| AcquireClient.ReceivedDecided | client/protobuf_acquire_list_channels.py:318-334 | once the loop has stopped for a reason, nothing later is looked at |
| AcquireClient.RoundTrip | client/protobuf_acquire_list_channels.py:303-334 | for every accepted request and interleaving, once its ceil(N/chunk) responses are out and successful, the files load as exactly the samples of each listed channel, whatever the producer does next |
| AcquireClient.ReturnedMeansDelivered | srcs/DaphneSlowController.cpp:446-502 | a fault-free request that returned has sent those responses |
| AcquireClient.RoundTripIffListedOnce | client/protobuf_acquire_list_channels.py:303-330 | from fresh files, with those responses out, this holds for a channel if and only if it is listed once |
| AcquireClient.ReceivedLength | client/protobuf_acquire_list_channels.py:329-330 | a channel listed m times gets m times its waveforms |
| AcquireClient.FaultLeavesPrefix | client/protobuf_acquire_list_channels.py:318-334 | after a producer fault each file holds whole chunks of the first waveforms, fewer than N; the client sees a server error if any response followed, else nothing more, and never completion |
| AcquireClient.FaultCutsHere | client/protobuf_acquire_list_channels.py:305-334 | along any run: the client keeps exactly the chunks sent before the fault and ends with a server error exactly if a response was sent after it |
| Otsu.ArgMax | client/led_charge.py:367-367 | the first index of a maximal element |
| Otsu.PrefixSums | client/led_charge.py:358-361 | cumulative sums are the weight and moment of the left class |
| Otsu.SuffixSums | client/led_charge.py:359-362 | reversed cumulative sums are the weight and moment of the right class |
| Otsu.WeightIsWhole | client/led_charge.py:361-362 | a class is empty or weighs at least one, so the guard replaces only zero |
| Otsu.ScoreMeaning | client/led_charge.py:358-364 | each entry of inter_class is w1*w2*(m1-m2)^2 of the two classes |
| Otsu.ScoreAndWithinClass | client/led_charge.py:364-364 | score plus total weight times within-class deviation is the same for every split |
| Otsu.OtsuIsOptimal | client/led_charge.py:353-368 | the chosen split is the first best-scoring one and has the least total within-class squared deviation, earlier splits being strictly worse, for any histogram of at least two bins |
| Otsu.ThresholdSplits | client/led_charge.py:320-322 | comparing a bin centre with the threshold is splitting at the optimal bin |
| Otsu.NothingToSplit | client/led_charge.py:361-364 | an empty histogram scores zero everywhere |
| Crc8.BuildTable | srcs/DaphneSpiDrivers.cpp:27-42 | entry i is eight shift steps of i |
| Crc8.Lut | srcs/DaphneSpiDrivers.cpp:44-50 | the look-up loop computes the checksum from 0xFF |
| Crc8.Shift8IsEntry | srcs/DaphneSpiDrivers.cpp:47-47 | one table look-up does what shifting in the eight bits of a byte does |
| Crc8.TableIsBitSerial | srcs/DaphneSpiDrivers.cpp:44-50 | the table-driven checksum is the bit-serial register, for every message and start |
| Crc8.DivisionStep | srcs/DaphneSpiDrivers.cpp:34-37 | one shift is one step of long division by x^8+x^2+x+1 |
| Crc8.RegisterIsRemainder | srcs/DaphneSpiDrivers.cpp:27-50 | the register holds the remainder of the division |
| Crc8.DivisionIsUnique | srcs/DaphneSpiDrivers.cpp:29-29 | quotient and remainder are determined |
| Crc8.ChecksumIsRemainder | srcs/DaphneSpiDrivers.cpp:44-50 | the driver's checksum is the remainder of message*x^8 with 0xFF added at the top, for every byte sequence |
| Crc8.ChecksumOfComplement | srcs/DaphneSpiDrivers.cpp:44-50 | coefficient by coefficient: the message with its first eight bits complemented and eight zeros appended is a multiple of the generator plus the checksum |
| Crc8.StreamAt | srcs/DaphneSpiDrivers.cpp:46-48 | the coefficients of a message are its bits, first byte first, most significant bit first |
| Crc8.StepsLinear | srcs/DaphneSpiDrivers.cpp:34-37 | table steps are linear over XOR |
| Crc8.AcceptedIffRegisterZero | srcs/DaphneSpiDrivers.cpp:71-78 | a damaged frame passes exactly if its flipped bits leave a zeroed register at zero |
| Crc8.AcceptedIffMultiple | srcs/DaphneSpiDrivers.cpp:71-78 | a damaged frame passes if and only if its flipped bits are a multiple of the generator |
| Crc8.DetectsOddFlips | srcs/DaphneSpiDrivers.cpp:71-78 | every odd number of flipped bits in message and checksum is detected, for any length |
| Crc8.DetectsBursts | srcs/DaphneSpiDrivers.cpp:71-78 | every nonzero burst of at most eight bits is detected, for any length |
| Crc8.NineBitBurstMissed | srcs/DaphneSpiDrivers.cpp:71-78 | for every frame a nine-bit burst goes unnoticed |
| Crc8.ReadRegister | srcs/DaphneSpiDrivers.cpp:61-84 | a value comes back exactly if both checksums and the opcode are right, else the first failing check is reported |
| Crc8.WriteRegister | srcs/DaphneSpiDrivers.cpp:86-104 | success exactly if checksum, opcode and value all come back right |
| DacWord.EncodeDecodes | srcs/Dac.cpp:187-187 | a half-word carries its channel tag and its level |
| DacWord.LevelLayout | srcs/Dac.cpp:187-187 | twelve bits of value, buffer in bit 12, gain in bit 13 |
| DacWord.HalfWordLayout | srcs/Dac.cpp:187-187 | the DAC's number stands in bits 14 and 15, above its level |
| Dac.WordOfIs | srcs/Dac.cpp:189-192 | the word sent carries channels 0 to 3 in its low half and 4 to 7 in its high half, the other half being the companion's shadow |
| Dac.UpdateOutputs | srcs/Dac.cpp:186-197 | a write sets its own DAC and the one its companion half-word is tagged for, and no other |
| Dac.UpdateKeepsAgreement | srcs/Dac.cpp:155-198 | from agreement of shadow and chips a write keeps it and changes its own DAC only |
| Dac.OthersKeptIff | srcs/Dac.cpp:186-197 | in terms of what the chips hold: one write leaves the other seven DACs alone exactly if the DAC it echoes on already holds the companion's level |
| Dac.SettingLostIff | srcs/Dac.cpp:155-198 | the condition on the request history under which one write loses the setting of another channel |
| Dac.WrittenOthersKeptIff | srcs/Dac.cpp:155-198 | the condition on the request history under which one write leaves every other channel set so far as it is |
| Dac.RunShadow | srcs/Dac.cpp:188-188 | the shadow of a channel is its last request, or zero |
| Dac.RunOutputs | srcs/Dac.cpp:155-198 | after power-up and writes in any order every written DAC holds its last request, save a clobbered first DAC of a chip, which holds zero |
| Dac.OnlyFirstDacsAtRisk | srcs/Dac.cpp:155-198 | no order of writes loses any channel but 0 and 4 |
| Dac.FirstDacKeptIff | srcs/Dac.cpp:155-198 | the exact condition for channels 0 and 4 |
| Dac.RunAgrees | srcs/Dac.cpp:155-198 | any complete and unclobbered order reaches agreement |
| Dac.AscendingEstablishesAgreement | srcs/DaphneSlowController.cpp:130-137 | the ascending loop reaches agreement from zero shadows whatever the chips held |
| Dac.AgreementForever | srcs/Dac.cpp:134-144 | from agreement any further requests keep it, each DAC ending at its last request or untouched |
| Dac.DescendingClobbers | srcs/Dac.cpp:155-198 | after power-up, setting channel 4 and then 1 resets 4 to zero |
| DacDriver.Driver.constructor | srcs/Dac.cpp:3-28 | all shadows start at zero |
| DacDriver.Driver.WiringOf | srcs/Dac.hpp:58-67 | reading a missing mapping row gives, and creates, an empty one |
| DacDriver.Driver.FindCompanionChannelValue | srcs/Dac.cpp:117-132 | finds the channel of the other chip with the same number; unknown channels get 0 and never change later answers |
| DacDriver.Driver.UpdateCurrentRegister | srcs/Dac.cpp:155-198 | unknown registers and channels are refused without effect, in that order; otherwise the word sent carries the channel and its companion's shadow, each in its half, and shadow and chips of the one register are updated |
| DacDriver.Driver.SetDacTrim | srcs/Dac.cpp:134-138 | the trim register of the AFE is updated and no other |
| DacDriver.Driver.SetDacOffset | srcs/Dac.cpp:140-144 | the offset register of the AFE is updated and no other |
| DacDriver.Driver.ConfigureChannels | srcs/DaphneSlowController.cpp:130-137 | each register gets the writes of its AFE's channels in list order, up to the first unknown AFE |
| DacDriver.ConfiguringAllChannels | srcs/DaphneSlowController.cpp:130-137 | configuring channels 0 to 39 in order after power-up leaves every trim and every offset DAC at its entry's trim or offset, gain and buffer off, and all banks in agreement |
| DacDriver.LastEntryWins | srcs/DaphneSlowController.cpp:130-137 | of several entries for a channel, in any list, the last one is the last written to its trim and offset |
| DacDriver.ConfiguringAgreedChannels | srcs/DaphneSlowController.cpp:130-137 | from agreement, any list leaves each DAC named at its last entry's trim or offset, every other as it was, and agreement |
| DacDriver.Driver.ConfigureAllChannels | srcs/DaphneSlowController.cpp:130-137 | the driver does so for all forty channels of all ten registers |
| DacDriver.Driver.ReconfigureChannels | srcs/DaphneSlowController.cpp:130-137 | and from then on for any list of channels |
| BitField.BitOfGet | srcs/reg.cpp:90-94 | a field read is its bits moved to the bottom |
| BitField.BitOfPut | srcs/reg.cpp:142-149 | a field write changes exactly the field's bits, 32-bit width included |
| BitField.PutOverwrites | srcs/reg.cpp:142-149 | the field's bits become those of the value and no other bit changes |
| BitField.GetAfterPut | srcs/reg.cpp:142-151 | read after write gives the data cut to the width |
| BitField.GetApart | srcs/reg.cpp:142-151 | non-overlapping fields still read the same |
| BitField.ApartIff | srcs/reg.cpp:142-151 | two fields are apart exactly if they share no bit |
| BitField.PutsCommute | srcs/reg.cpp:148-149 | writes to non-overlapping fields commute |
| BitField.PutShifted | srcs/Afe.cpp:124-127 | clearing and setting under a shifted mask is the same field write |
| BitField.GetShifted | srcs/Afe.cpp:131-131 | masking before shifting is the same field read |
| BitField.SameBits | srcs/reg.cpp:142-149 | a word is determined by its bits |
| FpgaRegDict.NameAtAddress | srcs/FpgaRegDict.cpp:26-61 | every register is found back from any word of its page |
| FpgaRegDict.AddressesApart | srcs/FpgaRegDict.cpp:14-236 | no two registers share a word, spy-buffer pages included |
| FpgaRegDict.OverlapsExactly | srcs/FpgaRegDict.cpp:5-55 | bit fields overlap in afeGlobalControl and the spy buffers only |
| FpgaRegDict.DisjointFieldsApart | srcs/FpgaRegDict.cpp:43-48 | two different fields of a disjoint list share no bit |
| FpgaRegDict.BuildDictionary | srcs/FpgaRegDict.cpp:3-236 | the constructor's loops yield exactly the known names, each with its address and bit ranges, none sharing an address |
| Reg.ApplyOwnField | srcs/reg.cpp:130-152 | a write sets its field to the data cut to the width |
| Reg.ApplyOtherField | srcs/reg.cpp:130-152 | a write leaves every field it shares no bit with, in this and all other registers |
| Reg.RunRefinesMap | srcs/reg.cpp:130-152 | any sequence of WriteBits refines a map from named fields to values |
| Reg.MapComplete | srcs/reg.cpp:130-152 | where a register's fields are disjoint that map knows every value |
| Reg.RunBits | srcs/reg.cpp:130-152 | overlapping fields included, every bit holds what was last written to it |
| Reg.Reg.GetRegister | srcs/reg.cpp:17-37 | address and bit range of a field; 0xDEADBEEF exactly for an unknown register, no range for an unknown bit name |
| Reg.Reg.ReadBits | srcs/reg.cpp:74-95 | the field's value at any offset, 0xDEADBEEF for an unknown register |
| Reg.Reg.WriteBits | srcs/reg.cpp:130-152 | rewrites the field and returns it read back, cut to the width; an unknown register gives 0xDEADBEEF and writes nothing |
| AfeTable.TableSound | srcs/defines.hpp:29-217 | of all rows but the backward one: every field lies in a listed 16-bit register, every option fits its field, no two fields overlap |
| AfeTable.ShippedTableIs | srcs/defines.hpp:29-217 | the shipped table is those rows and LVDS_OUTPUT_RATE_2X |
| AfeTable.ShippedFits | srcs/defines.hpp:38-38 | a function of the shipped table is well formed if and only if it is not LVDS_OUTPUT_RATE_2X |
| AfeTable.FoundFits | srcs/Afe.cpp:113-122 | whatever a name look-up finds in a sound table is well formed |
| AfeTable.AcceptsExactly | srcs/Afe.cpp:93-103 | two options are accepted as a range of numbers, ends included; any other list just as it stands |
| AfeTable.ShippedApart | srcs/defines.hpp:29-122 | two different functions of the shipped table that run forwards never share a bit |
| AfeTable.AcceptedFits | srcs/Afe.cpp:91-111 | an accepted value fits its field |
| Afe.WriteMeaning | srcs/Afe.cpp:34-56 | setRegister leaves write mode, stores and reads back the value from write mode, and can neither keep register 0 nor store from readout mode |
| Afe.ReadMeaning | srcs/Afe.cpp:58-71 | getRegister works from either mode, returns the register and changes register 0 only |
| Afe.SetFieldMeaning | srcs/Afe.cpp:113-140 | setAFEFunction rewrites its field, touches no other register but 0, and reads back the value cut to the field |
| Afe.SetFieldBits | srcs/Afe.cpp:124-128 | exactly bits lsb to msb of the one register change |
| Afe.SetFieldRewrites | srcs/Afe.cpp:124-128 | of all registers but 0, exactly the field's bits change, to those of the value, and the chip is left in write mode |
| Afe.RegisterZeroIsLost | srcs/Afe.cpp:47-48 | a function in register 0 ends as zero |
| Afe.SetFieldLandsIff | srcs/Afe.cpp:124-128 | a field write lands if and only if its register is not 0 or the word is zero |
| Afe.SentLayout | srcs/Afe.cpp:41-41 | a word on the wire has the register in bits 16 to 23 and the data below |
| Afe.FieldsCommute | srcs/Afe.cpp:124-128 | disjoint fields can be set in either order |
| Afe.DefinedIff | srcs/Afe.cpp:113-123 | the calls the source defines: all but those that reach the mask of LVDS_OUTPUT_RATE_2X |
| Afe.FunctionsCommute | srcs/Afe.cpp:83-140 | any two different functions can be set in either order, refused calls included, undefined ones not |
| Afe.AcceptedReadsBack | srcs/Afe.cpp:129-139 | an accepted setting outside register 0 is read back as requested |
| Afe.DoIsIdeal | srcs/Afe.cpp:34-158 | every defined call returns the chip to write mode and does to registers other than 0 what a plain store would |
| Afe.RunIsIdeal | srcs/Afe.cpp:34-158 | over any run of defined calls the chip stays in write mode and its registers other than 0 are those of plain stores |
| Afe.Driver.constructor | srcs/Daphne.cpp:285-292 | the driver starts with the register list and the shipped function table, LVDS_OUTPUT_RATE_2X included |
| Afe.Driver.SetRegister | srcs/Afe.cpp:34-56 | unlisted registers are refused without a transfer; otherwise the four transfers happen and the word read is returned |
| Afe.Driver.GetRegister | srcs/Afe.cpp:58-71 | unlisted registers are refused; otherwise the three transfers happen and the word read is returned |
| Afe.Driver.SetAFEFunction | srcs/Afe.cpp:83-140 | for every defined call: unknown functions, and values outside the range or list of options, are refused, each with its own error and without effect; otherwise exactly the field's bits change and the value is read back |
| Afe.Driver.GetAFEFunction | srcs/Afe.cpp:141-158 | for every function but LVDS_OUTPUT_RATE_2X, returns the field as the chip holds it |
| AfeOffers.DictionariesAgree | client/client_dictionaries.py:33-124 | the clients' dictionary and the driver's table have the same functions with the same options, one by one, but for one spelling, and every range has a smaller and a larger end |
| AfeOffers.AsShipped | client/client_dictionaries.py:44-44 | the clients offer POWER-DOWN_LDVS, which the driver does not know, and do not offer its POWER-DOWN_LVDS |
| AfeCommand.CheckedIffAccepted | client/afe_function_v2.py:25-37 | for every other function and every number a request carries, the newer client's check passes if and only if the driver accepts the value and narrowing keeps it |
| AfeCommand.LegacyPassesIff | client/protobuf_configure_afeFunction.py:53-66 | the older client's check passes what the newer one does, and every number whatever for a function with a range other than 0 to 1 |
| AfeCommand.AnotherNumberTaken | client/protobuf_configure_afeFunction.py:59-60 | for every such function, a number it passes outside the range, which the driver takes for one inside |
| AfeCommand.WriteFunction | srcs/DaphneSlowController.cpp:539-557 | succeeds exactly for board AFEs, known functions and values whose low 16 bits are an option; then sets exactly that field of that AFE, and otherwise nothing |
| AfeCommand.SetChecked | client/afe_function_v2.py:60-90 | end to end: what the check passes is set as asked on the one AFE, save under the name the driver does not know; nothing else is sent |
| LongestRun.LongestIdenticalSubsequenceIndices | srcs/Daphne.cpp:110-146 | nothing for an empty vector, otherwise the leftmost longest run of equal words |
| LongestRun.LongestIsUnique | srcs/Daphne.cpp:110-146 | there is only one leftmost longest run |
| LongestRun.ScanCloses | srcs/Daphne.cpp:128-137 | closing a run keeps the leftmost best of all runs seen |
| LongestRun.ScanEnds | client/align_all_afes.py:79-82 | after the last run is closed the kept run is the leftmost longest |
| LongestRun.MiddleIsUnique | client/align_all_afes.py:84-85 | the tap to choose is determined by the words alone |
| LongestRun.FloatMiddleIsMiddle | srcs/Daphne.cpp:174-182 | the halved and truncated midpoint is first + (last-first)/2 |
| Alignment.FrontEnd.SetDelay | srcs/FrontEnd.cpp:45-48 | nine bits of the value reach the one AFE's delay |
| Alignment.FrontEnd.SetBitslip | srcs/FrontEnd.cpp:55-58 | four bits of the value reach the one AFE's bitslip |
| Alignment.FrontEnd.DoTrigger | srcs/FrontEnd.cpp:39-43 | every AFE's word is latched with the delay and bitslip in force |
| Alignment.FrontEnd.Visit | srcs/Daphne.cpp:153-159 | sets one knob to i and returns the word latched at that setting with the other knob held |
| Alignment.FrontEnd.ScanGeneric | srcs/Daphne.cpp:148-163 | word i is the one latched while the scanned knob was at tap i and the other held; only that knob of that AFE moves |
| Alignment.FrontEnd.SetBestDelay | srcs/Daphne.cpp:165-195 | for any number of taps the delay ends at the middle of the leftmost longest stretch of taps that showed one word, cut to nine bits; fails only without taps; other AFEs and bitslips untouched |
| Alignment.FrontEnd.SetBestBitslip | srcs/Daphne.cpp:209-251 | the bitslip ends at the first tap that showed the target word at the delay in force, or else as found; the value returned is latched at the final setting |
| Alignment.FrontEnd.DoResetDelayCtrl | srcs/FrontEnd.cpp:8-14 | the delay control reset is pulsed, the other control bits kept |
| Alignment.FrontEnd.DoResetSerDesCtrl | srcs/FrontEnd.cpp:16-22 | the SerDes reset is pulsed, the other control bits kept |
| Alignment.FrontEnd.ResetDelayCtrlValues | srcs/FrontEnd.cpp:65-72 | all delays and bitslips become zero |
| Alignment.FrontEnd.AlignAFE | srcs/DaphneSlowController.cpp:505-537 | for any frame clock every AFE's delay ends at the middle of its longest stable stretch of taps and its bitslip at the first that shows the target word there, else zero; both resets are pulsed, VTC is 0 at every write after the zeroing and 1 at the end, and the reported values are the registers |
| Alignment.AlignedMeaning | srcs/Daphne.cpp:165-251 | word by word: the delay is the middle of the leftmost longest stretch of the 512 taps that showed one word, the bitslip the first of 16 that showed 0x00FF00FF there, or zero |
| Alignment.KnobsAsMapped | srcs/FpgaRegDict.cpp:106-119 | nine bits of delay, four of bitslip and the ninth spy buffer are what the register dictionary has |
| Alignment.FrontEnd.ScanTaps | client/align_all_afes.py:57-86 | the one-pass scan sets the middle of the leftmost longest stretch of taps that showed one word, for any positive tap count |
| Alignment.FrontEnd.HuntBitslip | client/align_all_afes.py:93-106 | stops at the first bitslip that shows the target word at the delay in force, or leaves the last bitslip tried |
| Alignment.FrontEnd.AlignOneAfe | client/align_all_afes.py:49-113 | the whole script for one AFE: tap, bitslip and what was found |
| Alignment.DriverAndClientAgree | client/align_all_afes.py:57-106 | where taps show the same words driver and script choose the same tap, and where bitslips do there the same bitslip exactly when one shows the target word |
| Alignment.SteadyLinkCalibrated | srcs/Daphne.cpp:165-251 | on a link whose words depend on the taps alone, the aligned AFE shows the target word at every later trigger if and only if some bitslip shows it at the chosen tap |
| Alignment.AgreeOnSteadyLink | client/align_all_afes.py:57-106 | on such a link driver and script, started from bitslip zero, agree on the tap always and on the bitslip exactly when it exists |
| FftAverage.WindowMoves | client/osc.py:394-400 | the window drops its oldest spectrum only once it is full |
| FftAverage.OneChannel | client/osc.py:343-361 | all spectra averaged are of the channel in force |
| FftAverage.AfterIs | client/osc.py:343-411 | the history kept event by event is, told from the events alone, the frames since the last reset or real switch that had the channel |
| FftAverage.SumGrows | client/osc.py:399-399 | adding a spectrum keeps the sum right |
| FftAverage.SumShrinks | client/osc.py:395-396 | subtracting the oldest keeps the sum right |
| FftAverage.SlotsDiffer | client/osc.py:394-394 | two spectra of one window never share a ring slot |
| FftAverage.Worker.constructor | client/osc.py:296-341 | when the FFT is enabled, the counts with their lower limits, and the empty starting state |
| FftAverage.Worker.SetFftChannelIndex | client/osc.py:343-366 | invalid and unchanged indices are ignored; a real switch starts a new history |
| FftAverage.Worker.ResetFftAverage | client/osc.py:369-378 | a reset starts a new history on the same channel |
| FftAverage.Worker.Accumulate | client/osc.py:394-400 | the running sum stays the sum of the last min(frames, avg) spectra |
| FftAverage.Worker.UpdateFft | client/osc.py:380-411 | emits on every emit_every-th spectrum, the mean of exactly the last navg |
| FftAverage.Worker.Run | client/osc.py:342-411 | over any interleaving of frames, switches and resets: event i emits exactly if it is a frame that has the channel last switched to and completes another emit_every spectra, and then the mean of the last avg frames of that channel, none of them older than the last reset or real switch |
| LedPulser.ValidateConfig | client/ssp_led_control.py:120-156 | accepts exactly the configurations within all limits |
| LedPulser.MaskBit | client/ssp_led_control.py:427-427 | bit c of a sum of powers of two is set exactly for its members |
| LedPulser.MaskHasChannels | client/ssp_led_control.py:427-427 | every mask is such a sum |
| LedPulser.TimingDecodes | client/ssp_led_control.py:427-438 | a timing word gives back mode, widths and delay, and is nonzero exactly for an enabled channel |
| LedPulser.TimingIsInjective | client/ssp_led_control.py:427-438 | equal timing words mean equal settings |
| LedPulser.LayoutsNest | client/ssp_led_control.py:413-417 | the five-channel layout lies within the twelve slots |
| LedPulser.ImageOn | client/ssp_led_control.py:429-441 | an enabled channel's writes extend the image, the loan to channel 6 included |
| LedPulser.ImageOff | client/ssp_led_control.py:442-444 | a disabled channel's writes extend the image |
| LedPulser.ImageIs | client/ssp_led_control.py:417-444 | for a mask that is the sum of the powers of two of a set of channels: exactly these get their pulse and bias, and channel 6 its bias if 7 is asked for and 6 is not, registers and words spelt out |
| LedPulser.PulsesIff | client/ssp_led_control.py:427-444 | the timing register is nonzero exactly for the channels asked for |
| LedPulser.OthersAre | client/ssp_led_control.py:400-446 | the registers a run may change, address by address; all others are as before |
| LedPulser.Client.Read | client/ssp_led_control.py:200-210 | a read succeeds exactly if its reply is sound, and then gives the register or the current status |
| LedPulser.Client.Write | client/ssp_led_control.py:212-227 | a write succeeds exactly if the value fits a word, its reply is sound and, but for the bias control, the readback's reply is sound and equal; then the register holds it |
| LedPulser.Client.ConfirmedIs | client/ssp_led_control.py:212-227 | which replies and readbacks confirm a write |
| LedPulser.Client.SyncAttempt | client/ssp_led_control.py:316-349 | one attempt ends with the endpoint's address and the external clock set and reports whether the status settled between 6 and 8 |
| LedPulser.Client.SyncRetries | client/ssp_led_control.py:316-351 | on a faithful device: ends with the first of five attempts to settle, or fails if none does |
| LedPulser.Client.SyncPdts | client/ssp_led_control.py:292-360 | success means the endpoint is selected, the clock is external, and the last status seen was running; only two registers are touched, none if there was nothing to do; a faithful device succeeds exactly if an attempt settles and one of three looks finds it running |
| LedPulser.Client.ConfigurePdtsRegisterBlock | client/ssp_led_control.py:370-380 | programs the PDTS block and nothing else |
| LedPulser.Client.ProgramChannel | client/ssp_led_control.py:422-444 | one loop turn sets the channel's two registers as the set of channels asked for says, extends the image, and touches only the banks |
| LedPulser.Client.Prepare | client/ssp_led_control.py:400-411 | synchronisation, module number, PDTS block and pulse count as configured, the banks untouched |
| LedPulser.Client.ConfigureRun | client/ssp_led_control.py:400-446 | if every transaction succeeds, the banks are lit for exactly the channels of the mask, with the words spelt out, the bias is applied last, pulse count, module number and synchronisation are as asked, and nothing outside banks and control registers changed; it does succeed on a faithful device |
| LedPulser.Client.StopRun | client/ssp_led_control.py:447-451 | zeroes all twelve slots of both banks, applies them, and changes nothing else |
| LedPulser.StopCoversBothLayouts | client/ssp_led_control.py:447-451 | after a stop every bank register a run of either layout can have set is zero |
| LedPulser.ImageDeterminesRun | client/ssp_led_control.py:421-444 | the channels asked for, mode, amplitudes and timing can be read off the banks |
| LedPulser.BiasWithoutPulse | client/ssp_led_control.py:439-440 | a lit channel that does not pulse is channel 6 on loan to channel 7 and nothing else |

## Left out

- Sockets, protobuf and envelopes: responses are records on a reliable ordered channel; a send that throws is not modelled.
- Threads inside a critical section: one pass through `push` or `pop` under the mutex is one step, and memory-model effects are not modelled.
- Software triggering: whether a trigger is fired per waveform is part of the snapshot oracle.
- SpyDump.Dump: stops with `Overrun` at the first store past the reply; what the source's process does after it is not modelled. A reply of negative size is taken to hold nothing.
- Client retries, the legacy one-reply file path and progress output of the acquisition script.
- The histogram itself and degenerate or non-finite charges around `_otsu_threshold`; rounding of floating-point sums. Counts are natural numbers and arithmetic is exact.
- Negative numbers and numbers beyond 32 bits given to the AFE clients: the request cannot carry them.
- `enableCRC` and the field accessors of the ADS1260 driver; the SPI transfer is the list of bytes that came back.
- `setDacTrimOffset`, gain, bias and HV DACs: they bypass the shadow, so mixing them with the modelled calls is outside the claims. The value returned by the SPI write is not modelled.
- AFE register names are byte addresses and AFE numbers are 0 to 4; a software reset (bit 0 of register 0) is stored like any other bit and not acted on. What register 0 itself would output in a read is the previous word read.
- Afe.Driver.SetAFEFunction: asks that the call be `Defined`, as do GetAFEFunction and the runs of calls: an accepted setting or a reading of LVDS_OUTPUT_RATE_2X shifts by a negative amount (its range runs from 12 to 14), for which C++ promises nothing. Refused settings of it are covered.
- AfeTable.TableSound: leaves that row to ShippedFits, which shows it to be the only ill-formed one.
- `initAFE` and the cached dictionaries of AFE registers.
- Reg.Reg.ReadBits: asks that a known register have the bit name (WriteBits too), since the source would shift by -1. Whole-register access by an unknown name, `ReadBitsFast`, register lists and the memory mapping itself are not modelled.
- Hardware that changes registers on its own: the register file is plain memory.
- Sleeps in the calibration and float precision of the midpoint beyond the exact range of the tap counts in use.
- FFT, windowing, conversion to dB and Qt signalling: a power spectrum is a given vector of reals.
- Waiting times of the PDTS synchronisation; its two registers are taken to exist on the device.
- Command dispatch, monitor threads, mezzanine and regulator drivers, configuration clients and plots.
