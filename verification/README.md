# Verified model of the PCIe benchmark engine

This project models the DMA engine of a PCIe micro-benchmark for FPGA boards together with the host
code that must agree with it, and proves what the two promise each other. The hardware is a set of
clocked state machines; each is modelled twice. A value-level transition system (one function per
clocked block) carries the proofs over whole runs, and a class in the form of the source (registers
and tables updated in place at every clock edge) is proved to take exactly the steps of that system.

`dafny verify dfyconfig.toml` checks everything.

## How the parts fit

| file | content |
|---|---|
| `Hw` | registers of fixed width, powers of two, division |
| `RqModel`, `Requester` | the DMA requester: transition system, and the same in clocked form |
| `RqPlan` | what a descriptor asks for, without registers: splitter, list of TLPs, frames |
| `RqRefine`, `RqSteps`, `RqCursor`, `RqRuns` | the invariant that ties registers, log and plan, its proof, and runs |
| `RqFraming` | a receiver that sees only TKEEP and TLAST |
| `RqTotals`, `Benchmark` | TLP and byte totals against the host formula; host loops |
| `RandomAddr`, `RandomPages`, `RqAddress`, `RqSafety`, `RqPages` | address generators, the shift register, page boundaries, host buffer |
| `RqProgress`, `RqBuffer` | termination; the payload buffer as a queue |
| `RcModel`, `Collector` | the completion side: per-tag counters |
| `TagLoop`, `DmaLoop` | request and completion side in a loop, with a ledger of outstanding reads |
| `Manager`, `EngineManager` | the engine manager: control, descriptor and statistics memories, configuration, read path, acknowledges |
| `Lockstep`, `Driver`, `Descriptors`, `Session` | driver, manager and requester together: cycles, calls, descriptor memories, whole sessions |
| `Operations`, `Calls` | the requester fed by memories and registers; from a driver call to the TLPs on the stream |
| `Completer`, `AckPath`, `HostPath` | the BAR0 completer, alone, in front of the manager, and between the polling driver and all registers |
| `Bridge` | the BAR2 to AXI-Lite bridge |
| `Etoi`, `PageRing` | the number parser and the ring of mapped pages |

TREADY, payload, completions, host accesses, ready signals and slave answers are inputs that vary
freely from cycle to cycle unless a condition is written out. A condition that a lemma puts on the
environment is a `requires` of that lemma:

- `RqPlan.Legal`: SIZE is positive and a multiple of 4, the window lies between 1 and the number of
  tags, and the 32-bit counters do not wrap. The descriptor is stable while an operation runs. Runs
  start from `Ready` or `AtRest`; `RqSafety.ReadyAfterIdle`, `DmaLoop.RestAfterIdle` and
  `DmaLoop.NextDescriptor` show that two idle cycles, in random mode six, lead there from reset as
  well as after any earlier operation with any earlier descriptor.
- `TagLoop.BeatOk`: a completion answers a read whose header has been transferred and that is still
  owed dwords, a completion TLP has one beat iff it carries at most 5 dwords, and TLPs are not
  interleaved (sections 2.2.6.2 and 2.3.1.1 of the PCI Express Base Specification 3.0).
- `TagLoop.Strikes`: no one-beat completion arrives directly after a cycle in which the idle
  completion bus shows the number of a tag that is handed out in that cycle for the first time after
  reset. `TagLoop.PulsesRightIff` proves that this is the exact condition, and `TagLoop.GlitchWitness`
  is a run that violates it.

## Findings

Properties that hold only under a condition are stated with the exact condition and a failing case:

- A BAR0 read is released by the acknowledge of an earlier write iff that write was stored in the
  three cycles before it; a statistics read then returns what the memory output held when it was
  stored, and else its row as the memory held it one cycle after (`AckPath.OwnAcknowledge`,
  `AckPath.DataDelivered`, `AckPath.TooClose`). Engine registers, which the driver polls, are not
  affected.
- The AXI-Lite bridge answers a read iff its data and descriptor do not show up while another
  completion is being sent (`Bridge.LostExactly`, `Bridge.LossHappens`); one outstanding read at a time is safe.
- A two-dword BAR0 write at an odd dword is stored four bytes too low, and such a read returns the
  bytes from four below its address (`Completer.WriteLands`, `Completer.ReadLands`), and
  a request with a dword without enabled bytes repeats the header of the previous completion
  (`Completer.HeaderSpans`, `Completer.HeaderOfNothing`).
- A BAR0 request of more than two dwords is taken and dropped; a read of that kind never gets a
  completion (`AckPath.LongerIsDropped`; section 2.3.1 of the PCI Express Base Specification 3.0 asks for
  one with status Unsupported Request).
- The configuration registers cannot be read back: all but the first answer with the statistics of the
  last slot, and the first with 0 (`AckPath.DataDelivered`). A write to the word behind the descriptor
  table changes the address of slot 0 (`HostPath.Placed`), and a descriptor write that meets an update of
  the statistics is lost (`Descriptors.PendingStep`), which the driver never causes.
- A mapping that passes the end of the page ring reaches beyond the buffer (`PageRing.ContiguousIff`,
  `PageRing.Overrun`). Closing any mapping but the oldest spoils the bookkeeping, and closing the last
  one leaves the `active` flag set (`PageRing.Ring.Close`).
- A mapping entered over one that is still in the driver's table is never released
  (`Driver.Card.WriteDescriptor`, `Driver.LeakHappens`).
- A descriptor is used by the call that wrote it iff its index is the driver's counter; the benchmark
  reads the statistics of its call under the same condition (`Session.CallDescriptor`,
  `Session.CallReturns`). A chained operation that is not held up starts in the third cycle after the
  end before it and then runs with the descriptor of the slot before
  (`Descriptors.OperationDescriptor`, `Descriptors.ChainedIsStale`).
- A call makes the requester emit exactly the plan of its order (`Calls.CallEmitsPlan`), in random
  mode if the enable comes nine cycles after the size and five after the direction. This gives the
  random pipeline the six cycles it needs; an operation that starts five cycles after reset takes its
  second block from a base off its block boundary unless SIZE is 4 (`RqSafety.SixCyclesNeeded`).
- Random mode is meant not to use the page of the last block again, but the source compares an offset
  with an absolute address. This works iff the two have the same page number, as for a buffer at
  address 0, or the register cannot name the page (`RandomPages.NeverTheSamePage`). The register has 31
  bits, so of a larger buffer only the first 2^19 pages and the one after them are ever used
  (`RandomPages.PageReached`).
- A tag above the window is forced busy; after the window has grown it stays busy until a TLP ends
  while the tag register points at it, which an idle bus has to bring about
  (`TagLoop.GrownWindowTag`, `TagLoop.ForcedFreed`, `TagLoop.ForcedHappens`). With SIZE 0 a block ends
  only with its 2^32-th TLP (`RqPlan.ZeroSizeBlock`, `RqPlan.ZeroSizeRun`).
- In fixed and sequential mode no request crosses a page iff the first two blocks are safe, and a
  block is safe iff it starts on a multiple of the largest TLP or ends within its page
  (`RqPages.PagesExactly`, `RqPages.TwoBlocksDecide`).
- The sequential generator has its closed form iff two blocks fit behind the start address in its
  page (`RqAddress.SequentialClosedForm`).
- The byte formula of the benchmark is exact for reads and a lower bound for writes, exact iff the
  number of TLPs is a multiple of the TLPs per block. The latency test applies `ceil` to a quotient
  that is already truncated, so it asks for one TLP too few unless the size is a multiple of the
  largest TLP or smaller than it (`Benchmark.LatencyReadsBlock`).
- The power-of-two test of the benchmark does not end above 2^63 (`Benchmark.DoublingNeverEnds`).

## Model

| member | source | states |
|---|---|---|
| RqPlan.SplitShape | FPGA/source/hdl/dma/dma_rq_logic.v:489-543 | the simple splitter (cut off the maximum until the rest fits) has n = ceil(size/m) pieces, piece i starts at i*m, all but the last are full |
| RqPlan.SplitCovers | FPGA/source/hdl/dma/dma_rq_logic.v:489-543 | the pieces cover the block without gap or overlap, sum to size/4 dwords and respect the maximum |
| RqPlan.EvenOdd | FPGA/source/hdl/dma/dma_rq_logic.v:497-540 | the sliced count and remainder registers are the rounding quotient and the size of the last piece |
| RqPlan.SplitterRefined | FPGA/source/hdl/dma/dma_rq_logic.v:489-543 | offset and length of every TLP as the hardware computes them are those of the simple splitter, between 1 and the maximum |
| RqPlan.ZeroSizeBlock | FPGA/source/hdl/dma/dma_rq_logic.v:502-570 | with SIZE 0 the modulus counter, advanced TLP by TLP, meets the TLP count exactly at the 2^32-th |
| RqPlan.ZeroSizeRun | FPGA/source/hdl/dma/dma_rq_logic.v:551-582 | in every run of an operation with SIZE 0 the counter register is that count of finished TLPs, so its block ends exactly there |
| RqPlan.UptoPrefix | FPGA/source/hdl/dma/dma_rq_logic.v:615-692 | progress inside a block, writes first, is a prefix of the plan of the operation |
| RqRuns.BeatHeld | FPGA/source/hdl/dma/dma_rq_logic.v:936-939 | a beat that is offered stays offered unchanged, keep, last and byte enables included, through any number of cycles without TREADY |
| RqRuns.BeatTaken | FPGA/source/hdl/dma/dma_rq_logic.v:741-747 | when it is taken it enters the stream exactly once, as it was offered, also when the next operation starts in that cycle |
| RqRuns.WholeStream | FPGA/source/hdl/dma/dma_rq_logic.v:901-1083 | across any number of operations the stream and the waiting beat are the frames of all TLPs handed out, in order, each beat once |
| RqSteps.IssuedTag | FPGA/source/hdl/dma/dma_rq_logic.v:1139-1147 | the tag in a read header is free, the lowest free one, and inside the window |
| RqSteps.StreamStep | FPGA/source/hdl/dma/dma_rq_logic.v:901-1083 | one cycle keeps: beats sent plus the beat in the register are the frames of the finished TLPs and of the part of the current one |
| RqCursor.WrAdvance | FPGA/source/hdl/dma/dma_rq_logic.v:551-582 | after a write TLP the counters, the word count and the address stand at the next TLP of the plan, the base of a new block coming from the generator |
| RqCursor.RdAdvance | FPGA/source/hdl/dma/dma_rq_logic.v:584-608 | the same for reads |
| RqCursor.RemStep | FPGA/source/hdl/dma/dma_rq_logic.v:803-862 | the remaining words go down by 4 per buffer entry taken and the truncated count stays its value mod 16 |
| RqCursor.EndCursor | FPGA/source/hdl/dma/dma_rq_logic.v:627-665 | the end of a write TLP leads to the next write, to the reads of the block, or to rest with the whole plan handed out |
| RqCursor.IssueCursor | FPGA/source/hdl/dma/dma_rq_logic.v:667-679 | an issued read leads to the next read, the next block's writes, or the wait with the whole plan handed out |
| RqRuns.InvStep | FPGA/source/hdl/dma/dma_rq_logic.v:551-1065 | the invariant tying all registers to log and plan is kept by every cycle for any TREADY, payload and completions |
| RqRuns.FollowsPlan | FPGA/source/hdl/dma/dma_rq_logic.v:615-959 | in every run the TLPs handed out are a prefix of the plan, each with the length, address and tag of its place, and the stream consists of their frames in order, each beat once |
| RqRuns.EndMeansComplete | FPGA/source/hdl/dma/dma_rq_logic.v:715-716 | the end is signalled only when the whole plan has been handed out |
| RqFraming.ReceiveAll | FPGA/source/hdl/dma/dma_rq_logic.v:1016-1083 | a receiver that only follows TKEEP and TLAST recovers from the frames exactly header and payload of every TLP, so header count, kept dwords and TLAST agree |
| RqFraming.ReceivedInOrder | FPGA/source/hdl/dma/dma_rq_logic.v:741-747 | in every run the beats that were taken give that receiver exactly the TLPs of the log, in order, without the one whose last beat still waits |
| RqTotals.PlanCounts | FPGA/source/hdl/dma/dma_rq_logic.v:627-679 | an operation sends max(1,T) reads and e*ceil(max(1,T)/e) writes |
| RqTotals.ReadBytesMatchHost | HOST/user/benchmark/benchmark.c:389-392 | for T >= 1 the bytes read are those of the benchmark's formula |
| RqTotals.WriteBytesBoundHost | HOST/user/benchmark/benchmark.c:468 | for writes the formula is never above the bytes sent, and equal iff T is a positive multiple of e |
| RqTotals.NoReadBeforeItsBlockIsWritten | FPGA/source/hdl/dma/dma_rq_logic.v:627-679 | in no run is a read of a block issued before all writes of that block |
| RandomAddr.OutGood | FPGA/source/hdl/dma/dma_rq_logic.v:330-379 | a masked random offset is a multiple of the rounded block size, keeps the block inside the buffer and inside one page, for any shift register content |
| RandomAddr.WarmStep | FPGA/source/hdl/dma/dma_rq_logic.v:330-379 | each cycle with a stable descriptor fills one more stage of the random pipeline with values of that kind |
| RandomPages.RandomBlock | FPGA/source/hdl/dma/dma_rq_logic.v:350-379 | in every run the delivered offset lies in the page of the masked shift register content of five cycles before, moved up one page modulo the buffer iff that is the page number of the block address in force three cycles before, at the block boundary below the content of that cycle |
| RandomPages.BlockTakesIt | FPGA/source/hdl/dma/dma_rq_logic.v:383-465 | a block that ends, and an idle cycle, take the next base from there |
| RandomPages.PageReached | FPGA/source/hdl/dma/dma_rq_logic.v:343-364 | exactly which pages of the buffer some content of the shift register leads to |
| RandomPages.NeverTheSamePage | FPGA/source/hdl/dma/dma_rq_logic.v:357-359 | no content leads to the page of the block in force iff the page of its address is the page of its offset, or the register can neither name it nor step to it |
| RandomPages.NeverStuck | FPGA/source/hdl/dma/dma_rq_logic.v:331-348 | the shift register stays between 1 and 2^31 - 1 in every run |
| RandomPages.Recurrence | FPGA/source/hdl/dma/dma_rq_logic.v:348 | in every run its lowest bits follow b(n + 31) = b(n) xor b(n + 3) |
| RqAddress.HopsCycle | FPGA/source/hdl/dma/dma_rq_logic.v:383-465 | block k of the sequential generator is at offset (k mod floor((4095-a)/SIZE))*SIZE, a being the page offset of ADDR |
| RqAddress.SequentialClosedForm | FPGA/source/hdl/dma/dma_rq_logic.v:383-465 | that closed form describes the generator iff a + 2*SIZE < 4096 |
| RqAddress.GenStep | FPGA/source/hdl/dma/dma_rq_logic.v:472-479 | the base of every block obeys its address mode, in every step |
| RqSafety.IdleAfterEnd | FPGA/source/hdl/dma/dma_rq_logic.v:990-998 | after any operation one cycle with TREADY leaves the idle requester with nothing to send |
| RqSafety.ReadyAfterIdle | FPGA/source/hdl/dma/dma_rq_logic.v:299-379 | from there, whatever the descriptor before, two cycles without a request, in random mode six, put every register that follows the descriptor in place |
| RqSafety.ReadyAfterReset | FPGA/source/hdl/dma/dma_rq_logic.v:299-379 | the same from reset |
| RqSafety.SixCyclesNeeded | FPGA/source/hdl/dma/dma_rq_logic.v:299-379 | six is the exact number: in every run of an operation that starts after five cycles from reset in random mode, the second block of either direction has a base inside the rules of that mode iff SIZE is 4 |
| RqSafety.NoPageCrossing | FPGA/source/hdl/dma/dma_rq_logic.v:383-479 | no TLP of any run crosses a 4 KB boundary, in fixed (aligned), sequential (a + 2*SIZE < 4096) and random mode |
| RqPages.BlockIff | FPGA/source/hdl/dma/dma_rq_logic.v:815-823 | the first n pieces of a block stay inside pages iff its start is a multiple of the largest TLP or they end within its page |
| RqPages.PagesExactly | FPGA/source/hdl/dma/dma_rq_logic.v:383-479 | in fixed and sequential mode all TLPs of a whole operation stay inside pages iff every block is of that kind |
| RqPages.TwoBlocksDecide | FPGA/source/hdl/dma/dma_rq_logic.v:383-465 | which is so iff the first two blocks are, also for addresses that wrap around 2^64 |
| RqSafety.RandomInsideBuffer | FPGA/source/hdl/dma/dma_rq_logic.v:330-379 | in random mode every TLP of every run lies inside the host buffer |
| RqSafety.ReadsWhatWasWritten | FPGA/source/hdl/dma/dma_rq_logic.v:819-889 | in fixed and sequential mode a read names exactly the bytes of the write with the same place |
| RqProgress.MeasureDecreases | FPGA/source/hdl/dma/dma_rq_logic.v:551-692 | (TLPs left, words left) never grows and strictly decreases in every productive cycle |
| RqProgress.OperationFinishes | FPGA/source/hdl/dma/dma_rq_logic.v:615-692 | an operation leaves its active states within a bounded number of productive cycles |
| RqBuffer.LiveSlotKept | FPGA/source/hdl/dma/dma_rq_logic.v:180-197 | the speculative write of a second slot never touches live data |
| RqBuffer.BufferIsQueue | FPGA/source/hdl/dma/dma_rq_logic.v:170-200 | in every run initial content and pushes equal pops and final content, in order, with occupancy at most 14 |
| RqBuffer.PayloadIsTaken | FPGA/source/hdl/dma/dma_rq_logic.v:930-951 | the payload of the operation in course is the latest stretch of what left the buffer |
| Requester.LowestFree | FPGA/source/hdl/dma/dma_rq_logic.v:1139-1147 | the downward loop finds the lowest free tag |
| Requester.ScanWindow | FPGA/source/hdl/dma/dma_rq_logic.v:697-717 | whether a tag of the window is free, and whether none is busy |
| Requester.Engine.StateBlock | FPGA/source/hdl/dma/dma_rq_logic.v:615-692 | the main state machine takes the transition of the model |
| Requester.Engine.CounterBlock | FPGA/source/hdl/dma/dma_rq_logic.v:551-608 | the four TLP counters take the values of the model |
| Requester.Engine.WriteBlock | FPGA/source/hdl/dma/dma_rq_logic.v:803-862 | remaining words, their low bits and the write address take the values of the model |
| Requester.Engine.ReadBlock | FPGA/source/hdl/dma/dma_rq_logic.v:865-893 | remaining words and read address take the values of the model |
| Requester.Engine.OutputBlock | FPGA/source/hdl/dma/dma_rq_logic.v:901-1083 | the output register and the read pointer take the values of the model |
| Requester.Engine.GenBlock | FPGA/source/hdl/dma/dma_rq_logic.v:383-465 | the address generators take the values of the model |
| Requester.Engine.TagBlock | FPGA/source/hdl/dma/dma_rq_logic.v:1159-1194 | the in-place update of the tag tables equals the parallel one |
| Requester.Engine.PushBlock | FPGA/source/hdl/dma/dma_rq_logic.v:180-197 | slots and pointers of the buffer take the values of the model |
| Requester.Engine.Tick | FPGA/source/hdl/dma/dma_rq_logic.v:180-1197 | one clock edge of the class is one step of the transition system, on all registers |
| Collector.Engine.TagBlock | FPGA/source/hdl/dma/dma_rc_logic.v:185-246 | the four registers of one tag take the values of the model, the other tags keep theirs |
| Collector.Engine.Tick | FPGA/source/hdl/dma/dma_rc_logic.v:121-246 | one clock edge of the class is one step of the completion model |
| TagLoop.CellStep | FPGA/source/hdl/dma/dma_rc_logic.v:185-246 | for one tag, in all cases: the pulse comes iff the last beat of the TLP that completes the requested size has arrived, and counters, difference and flag stay consistent |
| TagLoop.IssueTakes | FPGA/source/hdl/dma/dma_rq_logic.v:1159-1197 | the tag marked busy is exactly the one put in the header |
| TagLoop.LoopStep | FPGA/source/hdl/dma/dma_rc_logic.v:165-246 | the loop invariant over all tags and the ledger is kept |
| TagLoop.ReadsConserved | FPGA/source/hdl/dma/dma_rq_logic.v:1139-1197 | in every run reads issued are reads completed plus outstanding, none completes twice, outstanding reads own different busy tags of the window, a pulse implies busy |
| TagLoop.PulseExactlyOnLastDword | FPGA/source/hdl/dma/dma_rc_logic.v:185-193 | in every run a tag's pulse follows exactly the beat that ends the TLP with its last dword |
| TagLoop.StrikeCompletesUnserved | FPGA/source/hdl/dma/dma_rc_logic.v:171-173 | a one-beat completion directly after a cycle in which the idle bus showed a fresh tag completes that tag, which has got nothing |
| TagLoop.PulsesRightIff | FPGA/source/hdl/dma/dma_rc_logic.v:185-193 | all pulses of a cycle are right iff it brings no such completion |
| TagLoop.TwoCyclesRightIff | FPGA/source/hdl/dma/dma_rc_logic.v:185-246 | over two cycles: right iff not both the first shows a fresh tag and the second brings a one-beat completion |
| TagLoop.RunPulsesRightIff | FPGA/source/hdl/dma/dma_rc_logic.v:165-246 | the same in every run whose pulses have been right so far |
| TagLoop.GlitchWitness | FPGA/source/hdl/dma/dma_rc_logic.v:240 | a concrete run into a wrong pulse |
| TagLoop.ForcedStep | FPGA/source/hdl/dma/dma_rq_logic.v:1187 | a tag that is busy only because it lay outside the window completes iff a TLP ends while the tag register points at it, and is unchanged otherwise |
| TagLoop.ForcedFreed | FPGA/source/hdl/dma/dma_rq_logic.v:1187 | it is then free again iff the window covers it |
| TagLoop.GrownWindowTag | FPGA/source/hdl/dma/dma_rq_logic.v:1187 | until then it stays busy in every run, whatever the window |
| TagLoop.ForcedHappens | FPGA/source/hdl/dma/dma_rq_logic.v:1187 | two idle cycles with a smaller window bring it about |
| DmaLoop.SameIssue | FPGA/source/hdl/dma/dma_rq_logic.v:667-668 | the requester issues a read exactly when the ledger books one |
| DmaLoop.SysStep | FPGA/source/hdl/dma/dma_logic.v:283-406 | requester and completion side together keep the joint invariant |
| DmaLoop.RestAfterIdle | FPGA/source/hdl/dma/dma_logic.v:283-406 | between any two operations, two idle cycles, in random mode six, bring requester, tags and ledger to the state from which the results below start, whatever the descriptor before |
| DmaLoop.RestAfterReset | FPGA/source/hdl/dma/dma_logic.v:283-406 | the same from reset |
| DmaLoop.NextDescriptor | FPGA/source/hdl/dma/dma_logic.v:283-406 | after any run with one descriptor that leaves the requester idle the results apply to the next one, with the same or a smaller window |
| DmaLoop.EndMeansAnswered | FPGA/source/hdl/dma/dma_rq_logic.v:681-717 | when a reading operation signals its end, all its reads were issued, every read ever issued was answered to the last dword exactly once, and every beat has crossed the stream |
| DmaLoop.AnsweredMeansEnd | FPGA/source/hdl/dma/dma_rq_logic.v:681-717 | and the end comes in the cycle in which all reads of a finished requester are answered, or in the next |
| DmaLoop.NoEndWhileOutstanding | FPGA/source/hdl/dma/dma_rq_logic.v:681-717 | while a read is outstanding its tag is busy and the end is held back; issued = completed + outstanding at every moment |
| EngineManager.Unit.HostBlock | FPGA/source/hdl/dma/dma_engine_manager.v:272-319 | what the host writes to the control byte and the stop index |
| EngineManager.Unit.ControlBlock | FPGA/source/hdl/dma/dma_engine_manager.v:254-311 | control byte, stop index, stop flag, active index, VALID_ENGINE and running time take one step of the model |
| EngineManager.Unit.DescriptorBlock | FPGA/source/hdl/dma/dma_engine_manager.v:495-605 | the descriptor memories, updated in place, and the fetch of the active row take one step of the model |
| EngineManager.Unit.StatisticsBlock | FPGA/source/hdl/dma/dma_engine_manager.v:506-511 | the pending row is stored in the active slot |
| EngineManager.Unit.ConfigBlock | FPGA/source/hdl/dma/dma_engine_manager.v:313-362 | the configuration registers are written byte by byte |
| EngineManager.Unit.ReadBlock | FPGA/source/hdl/dma/dma_engine_manager.v:585-669 | the read path: address registers, two memory stages, result registers |
| EngineManager.Unit.Tick | FPGA/source/hdl/dma/dma_engine_manager.v:121-725 | control, descriptor and statistics memories, configuration, read path and acknowledge pipeline take one step of the model |
| Lockstep.Bracket | FPGA/source/hdl/dma/dma_rq_logic.v:615-717 | starts and ends alternate and an end lasts one cycle, for any descriptor and inputs |
| Lockstep.LockStep | FPGA/source/hdl/dma/dma_engine_manager.v:254-266 | the joint invariant of driver, manager and requester is kept by every cycle the driver can cause |
| Lockstep.IndicesAgree | FPGA/source/hdl/dma/dma_engine_manager.v:711-725 | from reset, in every driven run the active index counts the ends mod 1024 and equals the number of calls mod 1024 between enabled calls |
| Lockstep.EnableRunsPending | FPGA/source/hdl/dma/dma_engine_manager.v:696-725 | an enable runs exactly ((pending calls - 1) mod 1024) + 1 operations, so one iff one call is pending mod 1024 |
| Lockstep.StatisticsInNextSlot | FPGA/source/hdl/dma/dma_engine_manager.v:506-511 | between calls the row of operation n is in slot (n+1) mod 1024 |
| Lockstep.EnableTime | FPGA/source/hdl/dma/dma_engine_manager.v:674-694 | in every driven run the time register is the number of working cycles since the clear that follows the last enable |
| Descriptors.PendingStep | FPGA/source/hdl/dma/dma_engine_manager.v:496-560 | a descriptor write of any host is in the memory one cycle later iff it does not meet an update of the statistics; else it is lost |
| Descriptors.TableStep | FPGA/source/hdl/dma/dma_engine_manager.v:495-605 | write pipeline, memories and fetch pipeline stay consistent with what the host has stored |
| Descriptors.OperationDescriptor | FPGA/source/hdl/dma/dma_engine_manager.v:228-240 | in every driven run operation n starts on slot n mod 1024; the first one of an enable with the address and size last stored there, a chained one iff it does not start in the third cycle after the end before it |
| Descriptors.ChainedIsStale | FPGA/source/hdl/dma/dma_engine_manager.v:228-266 | when an operation ends short of the stop index, the next one starts three cycles later if TREADY is high, with the address and size of the one that has ended |
| Session.CallReturns | HOST/user/benchmark/benchmark.c:462-464 | for every list of calls, at the return of an enabled one its operations are over, the active index is the driver's counter, and the row read for its index is its own iff the index was that counter |
| Session.CallDescriptor | HOST/driver/nfpdma.c:81-97 | its operation starts on the slot of the driver's counter, with its own address and size if its index is that counter, and else with those the slot held before |
| Session.SessionRun | HOST/driver/nfpdma.c:64-126 | every session of calls, with idle cycles anywhere and polls until idle, is a driven run |
| Driver.CallIsDriven | HOST/driver/nfpdma.c:64-107 | every register write of a call is one the lockstep results allow, the eighth arms, the ninth enables |
| Driver.Card.WriteDescriptor | HOST/driver/nfpdma.c:64-126 | the writes of a call in order, the counter mod 1024, and the mappings: an enabled call releases all but overwritten ones |
| Driver.Card.ReleaseAll | HOST/driver/nfpdma.c:119-124 | the unmap loop releases every entry of the table once |
| Driver.LeakHappens | HOST/driver/nfpdma.c:72 | three calls after which a mapping stays for ever |
| Operations.OperationsEmitPlans | FPGA/source/hdl/dma/dma_engine_manager.v:219-240 | with the requester fed by the memories and registers, every operation that starts first of its enable with a usable and settled descriptor has emitted exactly its plan when it ends |
| Operations.StableAtStart | FPGA/source/hdl/dma/dma_engine_manager.v:228-266 | how long the descriptor has been stable at a start: as long as the settings, and since the fourth cycle after the last descriptor write |
| Calls.ScriptConfig | HOST/driver/nfpdma.c:74-85 | what each write of a call leaves in the configuration registers |
| Calls.ScriptControl | HOST/driver/nfpdma.c:87-107 | what the control writes leave in the direction and mode bits |
| Calls.SessionRunF | HOST/driver/nfpdma.c:64-126 | every session whose accesses are never in adjacent cycles keeps the rules of the fed requester |
| Calls.CallEmitsPlan | HOST/driver/nfpdma.c:64-126 | in every session, an enabled call after an enabled one, with the index of the driver's counter and a usable order, has at its return emitted exactly the plan of its order; in random mode if it is slow enough to fill the pipeline |
| Completer.WriteLands | FPGA/source/hdl/pcie_completer_to_bram.sv:221-248 | within the 2^24 words of the interface a write changes exactly the bytes it asks for iff it is one dword, starts at an even dword, or enables nothing |
| Completer.ReadLands | FPGA/source/hdl/pcie_completer_to_bram.sv:253-262 | whatever the memory holds, the completion carries the bytes stored from the address of the request on iff it is one dword long or starts at an even dword |
| Completer.HeaderSpans | FPGA/source/hdl/pcie_completer_to_bram.sv:254-376 | byte count and lower address span the enabled bytes whenever every dword has one, and else repeat the previous values |
| Completer.HeaderOfNothing | FPGA/source/hdl/pcie_completer_to_bram.sv:265-306 | with no enabled byte the previous values are repeated |
| Completer.Unit.Tick | FPGA/source/hdl/pcie_completer_to_bram.sv:151-376 | state, request and completion registers take one step of the model |
| AckPath.AckStep | FPGA/source/hdl/dma/dma_engine_manager.v:121-133 | stores are never adjacent, none follows a read within four cycles, and the acknowledge register mirrors them |
| AckPath.OwnAcknowledge | FPGA/source/hdl/pcie_completer_to_bram.sv:151-195 | a read is released within four cycles, by its own acknowledge iff no write was stored in the three cycles before it |
| AckPath.OneCompletionEach | FPGA/source/hdl/pcie_completer_to_bram.sv:380-412 | every accepted read gets exactly one completion, in order, with its own requester, tag and length |
| AckPath.DataDelivered | FPGA/source/hdl/dma/dma_engine_manager.v:606-668 | what every completion carries while it is sent: the bits of the status word, both indices or the time as they were in the store cycle; a statistics word of its row as it stood one cycle after the store cycle, or, released by a write, what was under way in the memory output |
| AckPath.ComesBack | FPGA/source/hdl/pcie_completer_to_bram.sv:146-190 | the completer never gets stuck: every cycle of every run brings it closer to the next request, except one in which a completion is not taken |
| AckPath.LongerIsDropped | FPGA/source/hdl/pcie_completer_to_bram.sv:118-190 | a read or write for this BAR that is offered while the completer waits is stored, and the read answered, iff it is one or two dwords long; a longer one is taken and dropped in silence |
| AckPath.TooClose | FPGA/source/hdl/pcie_completer_to_bram.sv:181-185 | a run in which a statistics read right after a write returns 0 although the row holds 7 |
| HostPath.WritesDelivered | FPGA/source/hdl/pcie_completer_to_bram.sv:219-246 | in every run the accesses of all cycles give every byte exactly the values that the writes offered to the waiting completer ask for, each once and in order, if all of them are of the kind that lands |
| HostPath.WritesArrive | FPGA/source/hdl/dma/dma_engine_manager.v:284-590 | in every run of the driver over BAR0, stop index, direction, mode, every byte of the configuration registers and every byte of the descriptor table is the last one an accepted write asked for |
| HostPath.Placed | FPGA/source/hdl/dma/dma_engine_manager.v:493-516 | which word address stands for which word of which slot: its own, and for the address of slot 0 also the word behind the table |
| HostPath.StopReadsBack | FPGA/source/hdl/dma/dma_engine_manager.v:652-655 | the completion of a read of the index word shows the stop index that the accepted writes asked for last |
| HostPath.HostRun | FPGA/source/hdl/dma/dma_sriov_top.v:200-206 | completer, manager and requester fed by each other keep all invariants, and the manager sees one of the driven runs of the results on descriptors and lockstep |
| HostPath.LoopEnds | HOST/driver/nfpdma.c:105-110 | the bit the driver polls is the enable bit of the store cycle; it leaves the loop exactly with a completion whose bit 0 is clear, and then all operations are over and the hardware index is its counter |
| HostPath.ScriptOverBar | HOST/driver/nfpdma.c:74-107 | each access of a call is what the write request of its size causes in its store cycle |
| Bridge.Step | FPGA/source/hdl/controller/pcie_to_axi_reg_requester.sv:212-371 | queues, pairing and counts are kept by every cycle |
| Bridge.CompletionsMatch | FPGA/source/hdl/controller/pcie_to_axi_reg_requester.sv:270-371 | in every run each completion carries requester and tag of the read that produced its data, in order, address and descriptor queue get what came with each accepted read, and every accepted read is queued, being sent, answered or lost |
| Bridge.NoneLost | FPGA/source/hdl/controller/pcie_to_axi_reg_requester.sv:321-354 | with one read outstanding at a time no completion is lost |
| Bridge.LostExactly | FPGA/source/hdl/controller/pcie_to_axi_reg_requester.sv:346-357 | when the data and descriptor of a read leave their queues, some continuation answers it iff no completion is being sent in that cycle |
| Bridge.LossHappens | FPGA/source/hdl/controller/pcie_to_axi_reg_requester.sv:346-357 | a run with two outstanding reads that loses one |
| Bridge.Unit.Tick | FPGA/source/hdl/controller/pcie_to_axi_reg_requester.sv:212-371 | one clock edge of the class is one step of the model and keeps the invariant |
| Etoi.ScanGroups | HOST/user/rwBar/rwBar.c:123-167 | the right-to-left loop returns the groups read in base 65536, mod 2^32, or -1 for any other text |
| Etoi.Atoi | HOST/user/rwBar/rwBar.c:176 | the decimal conversion, digit by digit, gives the positional value, saturated at the largest long |
| Etoi.Strtol | HOST/user/rwBar/rwBar.c:120 | the same in base 16 |
| Etoi.Parse | HOST/user/rwBar/rwBar.c:79-180 | the whole function against its specification, for every string |
| Etoi.GroupsOfPrint | HOST/user/rwBar/rwBar.c:123-167 | any number of printed groups is read as the number they spell |
| Etoi.ReadsBack | HOST/user/rwBar/rwBar.c:86-167 | the same behind any of the four prefixes, mod 2^32 |
| Etoi.RoundTrip | HOST/user/rwBar/rwBar.c:69-78 | a 32-bit number printed in two groups with either separator reads back as itself |
| Etoi.DecimalReadsBack | HOST/user/rwBar/rwBar.c:169-177 | a number spelled in decimal by repeated division, with any number of leading zeros, reads back as itself modulo 2^32, and as -1 from 2^63 on |
| Etoi.HexReadsBack | HOST/user/rwBar/rwBar.c:86-122 | so does one spelled in hexadecimal without separators behind any of the four prefixes |
| PageRing.Disjoint | HOST/driver/nfpioctl.c:222-273 | live regions never share a ring slot |
| PageRing.Ring.Map | HOST/driver/nfpioctl.c:243-273 | the probing loop accepts n pages iff n <= MAX_PAGES - 1 - used, and what is mapped where |
| PageRing.Ring.Close | HOST/driver/nfpioctl.c:222-235 | any live region may be closed: its pages leave the count, the beginning of the ring moves by them, and the bookkeeping stays right iff it was the oldest; the flag is cleared only when nothing is mapped |
| PageRing.ContiguousIff | HOST/driver/nfpioctl.c:261-266 | the mapped range consists of the region's own slots iff last + n <= MAX_PAGES |
| PageRing.Overrun | HOST/driver/nfpioctl.c:261-266 | two maps and a close lead to a range that passes the end |
| Benchmark.IsPowerOfTwo | HOST/user/benchmark/benchmark.c:434-441 | the doubling loop accepts exactly the powers of two |
| Benchmark.DoublingNeverEnds | HOST/user/benchmark/benchmark.c:435-437 | above 2^63 the counter of the loop stays below the size in every round |
| Benchmark.LatencyReadsBlock | HOST/user/benchmark/benchmark.c:375-377 | the reads of a latency test cover the block iff its size is a multiple of the largest TLP or smaller |

## Left out

- The wrappers, the vendor blocks and the traffic sources: block RAMs appear as memories of fixed latency, FIFOs as queues; clock crossing and asynchronous reset are not modelled.
- The latency and byte counters of the requester: the manager sees them as five inputs per cycle.
- Constant header fields (attributes, traffic class, ECRC) and the address type, traffic class and attribute fields that the completers copy: they would only add equal members.
- SIZE 0 and a window that grows after reset are no legal descriptors of the plan; what the code does with them is stated in `RqPlan.ZeroSizeBlock` and `TagLoop.GrownWindowTag`.
- Operations.OperationsEmitPlans: nothing about the TLPs of a chained operation that starts too early, whose descriptor changes while it runs.
- Calls.CallEmitsPlan: the window size is the one in force since reset, and the eight bytes of a descriptor word are one access; the distances it asks for in random mode are sufficient, and `RqSafety.SixCyclesNeeded` is where the six pipeline cycles they stand for are shown to be necessary.
- The full period of the shift register: no address property needs it.
- Lockstep.IndicesAgree: a call that leaves its polling loop by timeout is not modelled.
- AckPath.OwnAcknowledge: only requests inside the engine table; reads below it are never acknowledged, and the common block acknowledges on its own.
- Bridge.CompletionsMatch: not the lower address, for which the source keeps 5 bits, and not the write channel.
- Etoi.Parse: overflowing conversions saturate at the largest 64-bit long and are truncated, as in the GNU C library; the C standard leaves `atoi` open there.
- Benchmark.IsPowerOfTwo: sizes up to 2^63, because the loop of the source does not end above.
- RqSafety.NoPageCrossing: its conditions are sufficient for any prefix of a run; the exact ones for whole operations in fixed and sequential mode are in `RqPages`, random mode has none.
- Argument parsing, cache warming, logging, kernel calls and the middleware.
