# A model of the tensor-program compiler and its parallel runtime

The repository turns a sequential tensor program into one entry stream per lane and runs the
streams in parallel on an OpenCL device. This project models the scheduler that builds the
streams, the two engines that walk them, the protocols the engines rest on, and the loop nests,
file formats and analyses beside them, and proves that all of it does what the recursive
interpreter of `python/pjrt_ocl/vmreader.py` does, or says exactly when.

`dafny verify dfyconfig.toml` checks everything.

## How the pieces fit

- A *program* (`Isa`) is a list of instructions over buffers. An instruction is a shaped
  operation, an elementwise operation, or a WHILE, FOR or IF region with two instruction ranges.
  Memory is a map from (buffer, element) to a number; what an operation computes is a parameter,
  the *device*.
- The *interpreter* (`Reference`) runs a range instruction by instruction. It can also be run under
  the limits of the host engine, which has one frame fewer for regions and keeps trip counts in
  a C int (`OnePhase.Walker`, `Reference.Cramped`, `Reference.Trips`).
- The *scheduler* (`PhaseCut`, `Chains`, `Packing`, `PhaseUnits`, `Levels`, `Layout`,
  `Scheduler`) cuts a range into phases, fuses elementwise chains, splits work into chunks of
  tiles, places the chunks longest first, and lays nested regions out breadth first behind the
  root. `Layout.Block` and `Layout.Job` record, as ghost data, which stretch of the streams is
  which range; `Scheduler.Built` says that a schedule is one the scheduler produces.
- The *engines* (`Engine`) walk the streams with a stack of frames per lane: the lane simulator
  and the host-dispatch engine share one walk and differ in how they resolve an IF, in how deep
  they nest and in how they keep a trip count. Between two events the collected tiles run in an
  arbitrary interleaving of the lanes, chosen by an oracle that every theorem quantifies over.
- `Simulation`, `FrameWalk`, `HostLimits` and `Refinement` relate the two. The results are
  `EndToEnd.EngineIsReference`, which says for every program what each engine does, errors and
  early ends included, and `EndToEnd.ScheduleIsReference`, which says that this is what the
  interpreter does where an engine's limits are not felt (`HostRoom`).

## Premises

What the theorems ask of a program and its kernels:

- *Kernels keep their promises* (`OnePhase.KernelsOk`). A tile writes only its destination and
  reads only its operands; a tile of an elementwise operation reads tile T of its unviewed
  operands and writes tile T; the tiles of one shaped operation write disjoint cells and do not
  read the destination; members of one `disjoint` group write disjoint cells of their common
  destination and do not read it. The scheduler assumes this
  (`python/pjrt_ocl/scheduler.py:286-293` and `297-309`).
- *No view of a buffer written in the same phase* (`OnePhase.ViewSafe`): no elementwise operation
  of more than one tile reads through a view what an elementwise operation of its phase writes.
  The scheduler keeps an elementwise reader in the phase of its producer because "output tile T
  reads only input tile T", also when it reads through a strided view, where that is false. The
  premise is exact: see `ViewExact.ViewSafeExact` below.
- *Tiles are atomic steps.* The kernel publishes a work-group barrier between fused tile entries
  (`README.md:337-348` of the repository), so a tile sees the tiles before it in its lane.
- *The program is well formed* (`Reference.Nested`): ranges are in bounds, operations known,
  regions nest at most 8 deep, which are the conditions under which the interpreter itself
  accepts the program. There are fewer instructions than the first control task id.
- *The host engine does not feel its limits* (`HostRoom.Fits`), only for what is said of the
  host-dispatch engine against the unlimited interpreter: every region it comes to finds a free
  frame, or is an IF both of whose ranges leave all lanes empty, and every trip count is below
  2^31. Loops of no trips need nothing. One level of nesting to spare and such counts are enough
  (`HostRoom.NestedFits`). For programs whose only control is FOR and whose loops all do work the
  premise is exact (`HostDepth.HostExact`). With IFs it is not, because the nesting does not tell
  which branches are taken together (`BranchGap.RoomNotNeeded`); `EndToEnd.EngineIsReference` and
  `HostDepth.HostAgrees` need no such premise.

## Where the code does not keep a promise

Each of these is a property that the code or its documentation states, that fails, and for which
the project has the input and the exact condition.

- *Elementwise operations with equal element counts chain lane-locally*
  (`python/pjrt_ocl/scheduler.py:297-309`). Fails for `d1[t] := f(t); d2[t] := view(d1)[t]` with
  a view that swaps the two tiles: `ViewGap.ViewsMatter` gives the program, the lanes and the
  interleaving. A phase is right for all lawful kernels, lane counts, interleavings and memories
  if and only if no elementwise operation of more than one tile reads through a view a buffer that
  an elementwise operation of the phase writes (`ViewExact.ViewSafeExact`).
- *The host engine agrees with the interpreter up to 8 nested regions.* Fails at depth 8: the
  engine's root takes one of its 8 frames, and a lane that finds no free frame reports the end of
  the program (`pjrt_plugin/src/runtime.cc:1581` and `1590`). For eight nested one-trip FORs
  around one operation the host halts without having launched anything, and the interpreter
  writes the result: `NestingGap.HostMissesWork`. An IF at the limit is an error instead, unless
  its chosen range leaves all lanes empty (`HostLimits.HostReportsBranch`). What the host does in
  every case is what the interpreter does under the host's limits (`EndToEnd.EngineIsReference`,
  `HostDepth.HostAgrees`).
- *A FOR makes as many trips as its count says.* Fails on the host engine for counts from 2^31 up,
  which become negative or smaller in a C int (`pjrt_plugin/src/runtime.cc:1593`), and for no
  others: `HostDepth.LostTrips`. For programs of
  FORs that do work the host agrees with the interpreter if and only if it has room for every loop
  it comes to and every count of such a loop is below 2^31 (`HostDepth.HostExact`); otherwise it
  halts with fewer batches and reports nothing (`HostDepth.HostFallsShort`).
- *Scoreboard mode and barrier mode compute the same array.* Fails for more tiles per task than
  lanes, P > G, with K > 0 tasks, where barrier mode leaves the tiles past the last lane
  unwritten: they agree if and only if P <= G or K = 0 (`Scoreboard.ModesAgree`). The wait mask
  holds K bits of one 32-bit word, so the scoreboard is only defined for K < 32
  (`Scoreboard.MaskFits`), which its theorem asks for.
- *Every cell of C is the full sum.* Fails for the swept matmul when K = 0, where no sweep runs
  and C keeps what was in it (`Matmul.Run2D`). The packing kernel is then launched with an empty
  range, which is an error by itself before version 2.1 of OpenCL.
- *The coverage check accepts what the scheduler builds.* Fails when two region ranges share an
  instruction, whose tiles are then emitted once per range: two one-trip FORs with one body are
  rejected on every lane count (`SharedRanges.SharedBodyRejected`). It accepts if and only if no
  instruction with tiles is held twice, counting the ranges on all ways down from the root of the
  program (`SharedRanges.CoverageExact`).

## Model

| member | source | states |
|---|---|---|
| OnePhase.IndependentApart | python/pjrt_ocl/scheduler.py:274-294 | two compute instructions without a dependence write one buffer only inside one disjoint group, and otherwise neither reads what the other writes |
| PhaseCut.Phases | python/pjrt_ocl/scheduler.py:312-361 | the loop with per-buffer reader and writer indexes makes the same cuts as testing each instruction against every member of the current phase |
| PhaseCut.GreedyCuts | python/pjrt_ocl/scheduler.py:312-361 | the phases concatenate to the input in order, and no phase holds two instructions that need a barrier between them |
| PhaseCut.GreedyFewest | python/pjrt_ocl/scheduler.py:312-361 | no in-order partition into phases without an inner boundary has fewer phases |
| Chains.Union | python/pjrt_ocl/scheduler.py:523-550 | one union keeps the union-find a forest, joins the two classes and joins nothing that links do not force together |
| Chains.MapChains | python/pjrt_ocl/scheduler.py:523-550 | the chains are a permutation of the elementwise operations, each in program order, never separate an operation from the recorded writer of a buffer it reads, and are no coarser than these links force |
| PhaseUnits.MapsAgree | python/pjrt_ocl/scheduler.py:297-309 | two elementwise operations of one phase have different destinations, and one element count if one reads what the other writes |
| PhaseUnits.ChainsAreGood | python/pjrt_ocl/scheduler.py:552-578 | shaped operations alone and the elementwise chains together hold every instruction of the phase once, each chain in order with one tile count, and operations of different chains share no data |
| Packing.PackUnits | python/pjrt_ocl/scheduler.py:398-433 | the split, sort and least-loaded-lane loops put on each lane exactly the entries of the packing whose contents, order and load the rows PackedChunks, PackedWeave and PackingBound describe |
| Packing.PackedChunks | python/pjrt_ocl/scheduler.py:398-433 | the chunks hold every tile of every unit exactly once, each comes from one unit, and no two overlap, for every lane count and cost table |
| Packing.PackedWeave | python/pjrt_ocl/scheduler.py:398-433 | every interleaving of the packed lanes holds every requested tile exactly once and shows no pair of tiles in an order that the chunks rule out |
| Lpt.ListScheduleBound | python/pjrt_ocl/scheduler.py:420-433 | placing jobs longest first on the least loaded lane exceeds no limit that some assignment meets by more than the factor (4n - 1)/(3n), and meets it when all jobs are longer than a third of it |
| Lpt.PackingBound | python/pjrt_ocl/scheduler.py:398-433 | the fullest lane of a packed phase carries at most (4/3 - 1/(3n)) times the load of the fullest lane in any assignment of the same chunks |
| Interleave.RunSorted | python/pjrt_ocl/scheduler.py:297-309 | a trace whose inverted pairs all commute leaves the memory that the same steps leave in program order |
| OnePhase.PairSeparate | python/pjrt_ocl/scheduler.py:297-309 | tiles of two different instructions of a phase touch separate cells, unless they are the same tile of two elementwise operations that depend on each other |
| OnePhase.WholeByTiles | python/pjrt_ocl/vmreader.py:609-643 | running an instruction of a phase tile by tile, in tile order, leaves what the interpreter's whole-array step leaves |
| PhaseUnits.PhaseTheorem | python/pjrt_ocl/scheduler.py:552-578 | for every cost table, lane count, interleaving and memory, the packed lanes of a phase run every tile once and leave the memory of the tiles in program order |
| Reference.PhaseIsReference | python/pjrt_ocl/vmreader.py:421-467 | any interleaving of a packed phase leaves what the interpreter leaves after the phase's instructions |
| ViewExact.ViewSafeExact | python/pjrt_ocl/scheduler.py:481-494 | a phase is right for all lawful kernels, lane counts, interleavings and memories if and only if no elementwise instruction of more than one tile reads through a view a buffer that an elementwise instruction of the phase writes; elementwise work has a positive cost and an operation's task names its destination |
| ViewExact.ClashShows | python/pjrt_ocl/scheduler.py:481-494 | for any such reader and writer there are lawful kernels, a lane count, an interleaving and a memory for which the phase goes wrong |
| ViewGap.ViewsMatter | python/pjrt_ocl/scheduler.py:481-494 | two elementwise operations, the second reading the first through a view that swaps the two tiles, are kept in one phase, and one interleaving of two lanes leaves another memory than program order |
| Levels.BuildLevels | python/pjrt_ocl/scheduler.py:496-521 | the loop yields, for any range, the levels whose contents LevelsCarry describes |
| Levels.LevelsCarry | python/pjrt_ocl/scheduler.py:496-521 | the levels hold the range's instructions other than NOPs, in order, each region alone, and every compute level is a phase that can be emitted |
| Scheduler.Scheduler.TaskFor | python/pjrt_ocl/scheduler.py:469-476 | an instruction gets a task on first use and keeps it: the table holds at most one task per instruction and never changes what it held |
| Scheduler.OwnerBound | python/pjrt_ocl/scheduler.py:469-476 | there are no more tasks than instructions |
| Scheduler.Scheduler.EmitPhase | python/pjrt_ocl/scheduler.py:552-578 | every lane grows by its share of the packing of units formed from the phase's chains, and the tasks made are those of the phase |
| Scheduler.Scheduler.EmitWhile | python/pjrt_ocl/scheduler.py:595-629 | every lane gets the region's control entry with its ranges still open, and the region is queued with these positions |
| Scheduler.Scheduler.EmitLevel | python/pjrt_ocl/scheduler.py:580-593 | a level is appended to every lane, closed by a barrier unless it is the last, and nothing laid out before changes |
| Scheduler.Scheduler.ScheduleRange | python/pjrt_ocl/scheduler.py:580-593 | a range's levels stand in every lane behind what was there, in order and with a barrier between any two, and its regions are queued |
| Scheduler.Scheduler.ScheduleRegion | python/pjrt_ocl/scheduler.py:631-668 | the two ranges of the first queued region are appended to every lane and its control entries name them, all earlier blocks stay as they were, and the queued work shrinks |
| Scheduler.Scheduler.PatchJob | python/pjrt_ocl/scheduler.py:631-668 | in every lane exactly the region's own control entry is filled in, with that lane's start and length of the two ranges |
| Scheduler.Scheduler.ScheduleRoot | python/pjrt_ocl/scheduler.py:671-715 | the root range is laid out first in every lane, its ends are the root lengths, and a root that leaves every lane empty gets one barrier |
| Scheduler.ScheduleProgram | python/pjrt_ocl/scheduler.py:671-715 | for every nested program and lane count the breadth-first scheduler ends with every range laid out in every lane, every control entry naming its two ranges, tasks that are those of their instructions, and a task for nothing else |
| Acceptance.CheckLanes | pjrt_plugin/src/runtime.cc:220-247 | the loader's scan accepts a schedule if and only if its entries, sub-ranges and root lengths are in range and all lanes have one barrier count |
| Acceptance.ScheduleAccepted | pjrt_plugin/src/runtime.cc:220-247 | the loader accepts the lanes of every schedule that the scheduler builds |
| Acceptance.UniformBarriers | pjrt_plugin/src/runtime.cc:220-247 | every lane of a built schedule has the same number of barriers: one fewer than the levels of each range laid out, summed |
| Acceptance.SubRangesApart | python/pjrt_ocl/scheduler.py:631-668 | in every lane the two sub-ranges of a control entry lie at or behind the root's end, the first ends before the second starts, and both end before those of any later entry start |
| Coverage.CheckCoverage | python/pjrt_ocl/vmreader.py:502-526 | the loops accept if and only if, for every task, its tile ranges sorted over all lanes follow each other from 0 to its tile count |
| Coverage.CoversMeans | python/pjrt_ocl/vmreader.py:511-526 | non-empty sorted ranges follow each other from 0 to the tile count if and only if they hold every tile exactly once and no other |
| Coverage.ScheduleHits | python/pjrt_ocl/vmreader.py:502-526 | over all lanes of a built schedule a tile of a task is in as many entries as its instruction is in phases, and a number past the tile count in none |
| Coverage.AcceptedWhenOnce | python/pjrt_ocl/vmreader.py:502-526 | the check accepts a built schedule if and only if no instruction with tiles lies in two of the ranges laid out |
| SharedRanges.RangesCounted | python/pjrt_ocl/scheduler.py:671-715 | the ranges laid out that hold an instruction are as many as the ways down from the root range of the program, through region ranges, to a range that holds it |
| SharedRanges.CoverageExact | python/pjrt_ocl/vmreader.py:502-526 | the check accepts what is built for a program if and only if no instruction with tiles is held twice, counted in the program alone |
| SharedRanges.SharedBodyRejected | python/pjrt_ocl/vmreader.py:502-526 | two one-trip FORs with the same body: the check rejects the schedule on every lane count |
| Reference.NestedAccepted | python/pjrt_ocl/vmreader.py:421-467 | the interpreter never rejects a nested program, whatever it computes |
| Engine.RunControl | python/pjrt_ocl/vmreader.py:655-773 | the loops of the lane simulator and of host dispatch, frame by frame, compute the run that the refinement theorems are about, crashes included |
| RoundLaws.EventStep | python/pjrt_ocl/vmreader.py:726-773 | when all lanes stand at one event, a round runs what was collected since the last one and takes every lane past the event |
| Simulation.SimWork | python/pjrt_ocl/vmreader.py:655-725 | walking a compute level collects in every lane the level's entries, which leave the interpreter's memory when run |
| Refinement.SimNoTrips | python/pjrt_ocl/vmreader.py:695-698 | a FOR of no trips is stepped over in every lane and runs nothing, as in the interpreter |
| Refinement.SimTrips | python/pjrt_ocl/vmreader.py:756-766 | from the start of a FOR's body, every lane runs the trips that its counter still allows, also one that has become negative in a C int, and the loop ends as the interpreter's does |
| Refinement.SimTests | python/pjrt_ocl/vmreader.py:745-773 | from the start of a WHILE's condition, the machine and the interpreter take the same tests and trips, and run out of fuel together |
| Refinement.SimLight | python/pjrt_ocl/vmreader.py:705-721 | an IF whose chosen branch holds no barrier and no region adds it to the batch of its level, also when the branch is empty in some lanes only |
| Refinement.SimHeavy | python/pjrt_ocl/vmreader.py:705-721 | any other branch of an IF is entered by all lanes, run as the interpreter runs it, and left behind the IF |
| Refinement.SimCramped | pjrt_plugin/src/runtime.cc:1998-2034 | an IF that the host engine has no room for is stepped over if its chosen range leaves all lanes empty, and is an error otherwise |
| Refinement.SimTruncated | pjrt_plugin/src/runtime.cc:1580-1594 | a loop that the host engine has no room for ends the run there, with the memory and the batches of that moment |
| FrameWalk.BranchRound | pjrt_plugin/src/runtime.cc:1998-2034 | the host engine reads an IF's flag in a round of its own, without launching; lanes in which the chosen branch is empty step past the IF |
| Refinement.SimBlock | python/pjrt_ocl/vmreader.py:655-773 | from any level of a laid-out range, at any depth and on either engine, the machine reaches the end of the range with the interpreter's memory, or halts, crashes or runs on with it, and has launched one batch per phase that the interpreter ran |
| EndToEnd.EngineIsReference | pjrt_plugin/src/runtime.cc:1486-2060 | for every built schedule, lane count, cost table and interleaving, and on either engine without a premise on nesting or counts: the engine halts, crashes or runs on exactly as the interpreter under that engine's limits finishes or is cut short, fails, or needs more, with the same memory and one launched batch per phase with work; and each lane's entries between two events are one contiguous run |
| EndToEnd.ScheduleIsReference | python/pjrt_ocl/vmreader.py:389-773 | the same against the interpreter itself, for the lane simulator always and for the host engine where it has room and the trip counts are below 2^31: no round crashes (lanes never disagree on an event), a halt has the interpreter's memory and batch count, and the engine halts whenever the interpreter finishes |
| EndToEnd.CompileAndRun | python/pjrt_ocl/vmreader.py:529-652 | scheduling a program and running the result for any number of rounds crashes only if the interpreter under the engine's limits fails, and a halt has that interpreter's memory; where the limits are not felt it never crashes and a halt has the interpreter's memory |
| HostRoom.LimitsUnfelt | pjrt_plugin/src/runtime.cc:1580-1594 | a program that fits comes to the same memory and phases under the host engine's limits as without them, and is rejected by neither |
| HostRoom.NestedFits | pjrt_plugin/src/runtime.cc:1580-1594 | regions that nest one level less deep than the interpreter allows and counts below 2^31 are enough |
| HostLimits.BlankMeans | pjrt_plugin/src/runtime.cc:2020-2027 | no lane has an entry for a region's range exactly when the range holds no region and no tile and needs no barrier |
| HostLimits.HostStopsShort | pjrt_plugin/src/runtime.cc:1580-1594 | coming to a loop without a free frame the host engine halts at once with the memory it has, and the lane simulator has a frame left |
| HostLimits.HostReportsBranch | pjrt_plugin/src/runtime.cc:2028-2032 | coming to an IF without a free frame the host engine reports an error if some lane has an entry for the chosen branch |
| HostDepth.LostTrips | pjrt_plugin/src/runtime.cc:1585-1594 | a FOR that the host engine enters makes at least one trip and never too many, and all its trips if and only if its count is below 2^31 |
| HostDepth.HostFallsShort | pjrt_plugin/src/runtime.cc:1580-1594 | for programs whose only control is FOR and whose loops all do work: without room, or with a count from 2^31 up, the host engine halts with fewer batches launched than the interpreter runs phases |
| HostDepth.HostExact | pjrt_plugin/src/runtime.cc:1580-1594 | for such programs the host halts with the interpreter's memory and batch count if and only if every loop it comes to finds a free frame and has a count below 2^31 |
| HostDepth.HostAgrees | pjrt_plugin/src/runtime.cc:1486-2060 | with any control, the host halts with a given memory and batch count if and only if the interpreter comes to them under the host's limits |
| BranchGap.RoomNotNeeded | pjrt_plugin/src/runtime.cc:2020-2032 | eight nested IFs on one flag, the last with a branch it has no room for: the host agrees with the interpreter for all lawful kernels, lane counts, interleavings and memories |
| HostDepth.UnlaunchedUnchanged | pjrt_plugin/src/runtime.cc:1906-2060 | an engine that halts without having launched anything leaves the memory as it was |
| NestingGap.HostMissesWork | pjrt_plugin/src/runtime.cc:1580-1594 | eight nested one-trip FORs around one operation, on any lane count, interleaving and memory: the host halts with nothing launched and nothing changed, the interpreter has written the result |
| HostRing.Dispatcher.FlushGroup | pjrt_plugin/src/runtime.cc:1661-1696 | one upload and the staged kernels are queued, no staging slot that a queued command still reads is overwritten, and with a drain everything asked for has run in order |
| HostRing.Dispatcher.LaunchSegment | pjrt_plugin/src/runtime.cc:1604-1641 | staging a phase's table, with a drain when the ring of 256 is full, keeps every queued kernel reading its own table |
| HostRing.Dispatcher.ReadFlag | pjrt_plugin/src/runtime.cc:1967-1987 | after the blocking read of a flag every kernel asked for so far has run, in order, on the table of its phase |
| HostRing.Drive | pjrt_plugin/src/runtime.cc:1512-1696 | whatever the order of launches, peeled matmuls, flag reads and device progress, the kernels that ran are those asked for, in order, each on the table of its phase |
| HostPath.AdvanceHost | pjrt_plugin/src/runtime.cc:1560-1602 | a lane's walk to its next event ends where the engine's walk ends, and its row of the table is the position of the first entry walked over and their number |
| HostPath.HostRound | pjrt_plugin/src/runtime.cc:1906-2060 | one turn of the event loop over the asynchronous queue, which stages the table that the lanes wrote while walking and knows the memory only after a drain, follows one round of the engine that runs every batch at once |
| HostPath.HostLoop | pjrt_plugin/src/runtime.cc:1906-2060 | however far the device gets in each round, the event loop gives the engine's answer, and running the tables in the order they ran gives its memory |
| HostPath.CompileAndDispatch | pjrt_plugin/src/runtime.cc:1486-2060 | scheduling a program and dispatching it over the ring crashes only if the interpreter under the host's limits fails, and a halt has that interpreter's memory with one kernel per phase with work; for a program that fits it never crashes and the memory is the interpreter's |
| DispatchCount.Walk | tools/phase_count.py:55-104 | the recursive walk with its trip-weighted counters counts what the row DispatchesCounted compares with a run |
| DispatchCount.RunsWithinWalk | tools/phase_count.py:55-104 | a run of a range without WHILE, under either engine's limits, passes at most the phases that the walk counts |
| DispatchCount.WalkExact | tools/phase_count.py:55-104 | with FOR as the only control it passes exactly as many if and only if every level of the range, and of the bodies of loops that are entered, has a tile |
| DispatchCount.DispatchesCounted | tools/phase_count.py:55-104 | an engine that halts on a schedule without WHILE has launched at most the walk's count of kernels; where its limits are not felt it halts, and with FOR as the only control it has launched exactly that count if and only if every level that is run has a tile |
| Barrier.BarrierHolds | build-test/vm_cl_source.h:142-158 | for any client whose accesses between barriers are race free, any number of workgroups below 2^32 and any cache behaviour: nobody leaves a generation before everybody has arrived in it, generations differ by at most one, no arrival is lost, the phase word may wrap, and every read sees what the sequential run sees |
| Barrier.MemoryAtEnd | build-test/vm_cl_source.h:107-158 | when every workgroup is done, main memory is what the sequential run of the client leaves |
| Barrier.NeighbourChecksPass | poc/07-barrier-memmodel/main.c:55-76 | the stale-read count of the neighbour check stays 0 for every group and iteration count |
| Barrier.NeverStuck | build-test/vm_cl_source.h:142-158 | in every reachable state in which somebody is not done, somebody can advance |
| Barrier.AdvanceShrinks | build-test/vm_cl_source.h:142-158 | every advance brings the end nearer, so no run of advances is infinite |
| Discovery.DiscoveryHolds | poc/08-occupancy-discovery/main.c:44-63 | for every launch size and residency limit: the tickets are exactly 0 to count - 1, the count never exceeds the limit, no ticket holder has left while the gate is open, and at the end the gate is closed and the count at least 1 |
| Discovery.NeverStuck | pjrt_plugin/src/runtime.cc:664-707 | in every reachable state in which some group is not gone, something useful can happen |
| Discovery.SpinnersReleased | poc/08-occupancy-discovery/main.c:44-63 | groups that spin on the gate never fill the device while it is open |
| Discovery.UsefulShrinks | poc/08-occupancy-discovery/main.c:44-63 | every useful action brings the end nearer |
| Scoreboard.BuildScoreboard | poc/16-scoreboard/main.c:170-196 | the host loops deal producer tiles and then dependent tiles round robin, so every lane's stream lists its producers first |
| Scoreboard.MaskBits | poc/16-scoreboard/main.c:170-196 | bit k of the wait mask is set exactly for the tasks that exist |
| Scoreboard.MaskFits | poc/16-scoreboard/main.c:170-196 | the mask fits the 32-bit word if and only if there are fewer than 32 tasks |
| Scoreboard.ScoreboardCorrect | poc/16-scoreboard/main.c:70-108 | for fewer than 32 tasks every interleaving that runs to the end leaves the expected dependent array, so no dependent tile has read an unfinished producer tile |
| Scoreboard.NoDeadlock | poc/16-scoreboard/main.c:70-108 | as long as some lane is busy, some lane can advance |
| Scoreboard.RunBarriers | poc/16-scoreboard/main.c:70-108 | barrier mode writes the expected value for every tile that has a lane, and leaves the others 0 |
| Scoreboard.ModesAgree | poc/16-scoreboard/main.c:70-108 | running both modes, each in any order, gives the same array if and only if there are at most as many tiles per task as lanes, or no tasks |
| CriticalPath.BuildEdges | poc/16-scoreboard/critical_path.py:58-84 | the last-writer and readers-since tables yield exactly the sparse dependence edges |
| CriticalPath.SameClosure | poc/16-scoreboard/critical_path.py:58-84 | the sparse edges and the all-pairs RAW, WAW and WAR conflicts have the same transitive closure |
| CriticalPath.ChainsBounded | poc/16-scoreboard/critical_path.py:76-84 | no conflict chain that ends at a phase weighs more than the phase's path value |
| CriticalPath.ChainAttained | poc/16-scoreboard/critical_path.py:76-84 | some conflict chain that ends at the phase weighs exactly that much |
| CriticalPath.NothingToOverlap | poc/16-scoreboard/critical_path.py:58-84 | the critical path is at most the serial total, and equal to it if and only if one chain holds every phase that costs anything |
| CriticalPath.Ceiling | poc/16-scoreboard/critical_path.py:58-107 | the computed value is the largest weight of any conflict chain, and the read-after-write value is at most that |
| Timeline.PlannedTimeline | tools/plot_schedule.py:158-190 | the replay loop over positions and clocks computes the makespan that MakespanIsLoads determines, and refuses a lane that comes to control |
| Timeline.MakespanIsLoads | tools/plot_schedule.py:158-190 | the replay of a built schedule is refused if and only if the program has a region, and otherwise ends at the sum over its phases of the largest lane load |
| Timeline.MakespanNear | tools/plot_schedule.py:158-190 | that sum is at most (4/3 - 1/(3n)) times what any phase-by-phase placement of the same chunks takes |
| Reduction.HalvingTree | build-test/vm_cl_source.h:606-649 | for a power-of-two work-group size the in-place tree leaves the fold of all local values in the first |
| Reduction.PartTile | build-test/vm_cl_source.h:606-630 | strided accumulation and the tree fold exactly the elements of the tile's chunk |
| Reduction.Reduce | build-test/vm_cl_source.h:606-649 | over any commutative monoid, for any length, chunk size, power-of-two group size and tile order, the two stages give the fold of all elements |
| Reduction.KindsLawful | build-test/vm_cl_source.h:606-649 | the 32-bit wrapping sum and product, the maximum and the minimum are commutative monoids |
| Matmul.RefMM | poc/18-cpu-sgemm-2d/main.c:116-119 | the reference loops leave the full dot product in every cell |
| Matmul.PackB | poc/18-cpu-sgemm-2d/main.c:11-17 | the packed buffer holds row k of panel p of B at 16 (p K + k) |
| Matmul.WorkGroup | poc/18-cpu-sgemm-2d/main.c:80-111 | one work group of a sweep advances exactly the cells it owns from one K bound to the next, ragged rows included, and changes no other |
| Matmul.Run2D | poc/18-cpu-sgemm-2d/main.c:80-155 | for N a multiple of 16, any M, any sweep width and any order of work groups, every cell ends as the full dot product if K > 0 and keeps its value if K = 0 |
| Matmul.MmaTile | build-test/vm_cl_source.h:722-774 | one tile of the tiled kernel writes the full dot product to its cells inside the matrix, over zero-padded blocks of 16, and no other cell |
| Matmul.MmaAll | build-test/vm_cl_source.h:722-774 | all tiles, in any order and repeated at will, leave the full dot product in every cell for any M, N > 0 and K |
| ProgramFormat.RoundTrip | poc/03-python-lowering/vmprogram.py:135-201 | parsing what serialize writes gives the program back, and anything behind it is the trailing-bytes error |
| ProgramFormat.ParseExact | poc/03-python-lowering/vmprogram.py:166-201 | the reader yields a program if and only if the bytes are an image of that program with fields that fit |
| ProgramFormat.Serialize | poc/03-python-lowering/vmprogram.py:135-148 | the writer loops produce the image that the round trip is about, for every program |
| ProgramFormat.Parse | poc/03-python-lowering/vmprogram.py:166-201 | the cursor loops of the reader return the program or the error that RoundTrip and ParseExact determine, for every byte string |
| ScheduleFormat.SerializeSections | python/pjrt_ocl/scheduler.py:226-248 | the writer loops produce the image whose reading RoundTrip determines |
| ScheduleFormat.ParseSchedule | python/pjrt_ocl/vmreader.py:321-380 | the reader loops return for every byte string the schedule or the rejection that the image function gives, which RoundTrip determines |
| ScheduleFormat.LaneTabFinds | python/pjrt_ocl/scheduler.py:226-248 | every row of the lane table finds its lane again in the joined entries, with its root length |
| ScheduleFormat.RoundTrip | python/pjrt_ocl/vmreader.py:321-380 | tasks with their packed operation and dtypes, lane streams and root lengths come back as they were, and trailing bytes are rejected |
| ScheduleFormat.BuiltRoundTrip | python/pjrt_ocl/vmreader.py:321-380 | every schedule that the scheduler builds, with fields that fit and buffers that exist, is read back as it was |

## Left out

- EndToEnd.EngineIsReference: the host's event loop gives up after 10^8 rounds (`runtime.cc:1906-1911`), and for a count of exactly 2^31 (modulo 2^32) its counter overflows, which C++ leaves undefined; the model's loop has no bound, and it leaves the FOR after one trip then.
- Scoreboard.ScoreboardCorrect: asks for fewer than 32 tasks, because the shift that builds the wait mask is undefined in C from 32 on.
- HostPath.AdvanceHost: NOP entries, which the host counts and its kernel skips, are not counted here; the scheduler emits none.
- HostRing.Dispatcher.LaunchMatmul: when a matmul is peeled off (size gates, hybrid routing, trace mode) is left to the caller; only its place in the order is modelled.
- Scheduler.ScheduleProgram: programs outside the interpreter's domain, for which the source raises ScheduleError, are excluded by its premise; task ids are given when a phase is emitted, while in the source a boundary test already makes the tasks it looks at (`scheduler.py:494` and `504-510`), in the order of a Python set, so ids may be numbered differently.
- Packing.PackUnits: costs are reals, so rounding of the float costs and loads is not modelled.
- Barrier.BarrierHolds: the counter and the phase are 32-bit words; the number of workgroups is below 2^32.
- The arena: buffers are disjoint by construction, so reuse of a buffer's bytes by another buffer is not modelled.
- Floating point: kernels, matrices and reductions are over abstract numbers or rings; rounding, dtypes and fast paths are not modelled.
- The trailing barrier option of `schedule_range`: no caller uses it.
- `_split_phases` (`python/pjrt_ocl/vmreader.py:475-499`): the path for schedules without control, which the lane simulator covers.
- `vm2` on the device (`build-test/vm_cl_source.h:1052-1151`): an older walk without FOR; its flag reads without a drain are not modelled.
- The text rows of `tools/phase_count.py` and the plots of `tools/plot_schedule.py`.
- `EnqueuePackedMM` (`runtime.cc:1226-1306`): its sweeps are those of Matmul.Run2D; the choice of the sweep width is left out.
- `poc/10-cpu-sgemm/main.c` `v2` and `v3`: `v3` is Matmul.Run2D with all panels in one column of work groups, and `v2` the same with one sweep (which, having no sweep loop, writes zeros for K = 0).
- Overflow of `lo + chunk` in the reduction kernels and of index arithmetic in general.
- PJRT entry points, OpenCL device selection, lowering from StableHLO, buffer pools, profiling: glue and foreign calls.
