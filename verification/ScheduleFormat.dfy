/** The schedule sections of a program file: a header, the tasks, a lane table, and the entries of
    all lanes one after the other. */
module ScheduleFormat {
  import opened Arith
  import opened Wire
  import opened Isa
  import opened Streams
  import opened PhaseCut
  import opened Layout
  import opened Scheduler
  import opened Acceptance

  const HEADER: seq<nat> := [4, 4, 4, 4]
  const TASK: seq<nat> := [4, 4, 4, 4, 4, 4, 4, 4, 4, 4, 4, 4]
  const LANE: seq<nat> := [4, 4, 4, 4]
  const ENTRY: seq<nat> := [4, 4, 4, 4, 4, 4, 4, 4]

  // ----- tasks --------------------------------------------------------------------------------

  /** Operation and element types share a word, one byte each. */
  function PackOp(t: Task): nat { t.tileOp + 256 * t.dtype + 65536 * t.adtype }

  function TaskFields(t: Task): (f: seq<nat>)
    ensures |f| == |TASK|
  {
    [PackOp(t), t.dst, t.a, t.b, t.p0, t.p1, t.p2, t.p3, t.p4, t.p5, t.p6, t.p7]
  }

  predicate GoodTask(t: Task) {
    FitAll(TaskFields(t), TASK) && t.tileOp < 256 && t.dtype < 256 && t.adtype < 256
  }

  function WriteTask(t: Task): seq<byte> { Pack(TaskFields(t), TASK) }

  function ReadTask(s: seq<byte>): Option<(Task, seq<byte>)> {
    match ReadRecord(s, TASK)
    case None => None
    case Some((f, rest)) =>
      Some((Task(f[0] % 256, f[1], f[2], f[3], f[4], f[5], f[6], f[7], f[8], f[9], f[10], f[11], f[0] / 256 % 256,
          f[0] / 65536 % 256), rest))
  }

  lemma UnpackOp(t: Task)
    requires t.tileOp < 256 && t.dtype < 256 && t.adtype < 256
    ensures PackOp(t) % 256 == t.tileOp && PackOp(t) / 256 % 256 == t.dtype && PackOp(t) / 65536 % 256 == t.adtype
  {
  }

  lemma TasksReadBack()
    ensures ReadsBack(WriteTask, ReadTask, GoodTask)
  {
    hide Pack, Unpack, Size, FitAll, PackOp;
    forall t, rest | GoodTask(t)
      ensures ReadTask(WriteTask(t) + rest) == Some((t, rest))
    {
      ReadPacked(TaskFields(t), TASK, rest);
      UnpackOp(t);
    }
  }

  // ----- entries --------------------------------------------------------------------------------

  function EntryFields(e: Entry): (f: seq<nat>)
    ensures |f| == |ENTRY|
  {
    [e.task, e.tileLo, e.tileHi, e.waitFlag, e.waitCount, e.signalFlag, e.slots, e.pad]
  }

  predicate GoodEntry(e: Entry) { FitAll(EntryFields(e), ENTRY) }

  function WriteEntry(e: Entry): seq<byte> { Pack(EntryFields(e), ENTRY) }

  function ReadEntry(s: seq<byte>): Option<(Entry, seq<byte>)> {
    match ReadRecord(s, ENTRY)
    case None => None
    case Some((f, rest)) => Some((Entry(f[0], f[1], f[2], f[3], f[4], f[5], f[6], f[7]), rest))
  }

  lemma EntriesReadBack()
    ensures ReadsBack(WriteEntry, ReadEntry, GoodEntry)
  {
    hide Pack, Unpack, Size, FitAll;
    forall e, rest | GoodEntry(e)
      ensures ReadEntry(WriteEntry(e) + rest) == Some((e, rest))
    {
      ReadPacked(EntryFields(e), ENTRY, rest);
    }
  }

  // ----- the lane table -----------------------------------------------------------------------------

  datatype LaneRow = LaneRow(off: nat, count: nat, root: nat)

  function LaneFields(r: LaneRow): (f: seq<nat>)
    ensures |f| == |LANE|
  {
    [r.off, r.count, r.root, 0]
  }

  predicate GoodLane(r: LaneRow) { FitAll(LaneFields(r), LANE) }

  function WriteLane(r: LaneRow): seq<byte> { Pack(LaneFields(r), LANE) }

  function ReadLane(s: seq<byte>): Option<(LaneRow, seq<byte>)> {
    match ReadRecord(s, LANE)
    case None => None
    case Some((f, rest)) => Some((LaneRow(f[0], f[1], f[2]), rest))
  }

  lemma LanesReadBack()
    ensures ReadsBack(WriteLane, ReadLane, GoodLane)
  {
    hide Pack, Unpack, Size, FitAll;
    forall r, rest | GoodLane(r)
      ensures ReadLane(WriteLane(r) + rest) == Some((r, rest))
    {
      ReadPacked(LaneFields(r), LANE, rest);
    }
  }

  /** Where each lane's entries are in the common array, the first at `off`. */
  function LaneTab(streams: seq<seq<Entry>>, roots: seq<nat>, off: nat): (rows: seq<LaneRow>)
    requires |streams| == |roots|
    ensures |rows| == |streams|
  {
    if streams == [] then []
        else [LaneRow(off, |streams[0]|, roots[0])] + LaneTab(streams[1..], roots[1..], off + |streams[0]|)
  }

  predicate RowOk(r: LaneRow, nEntries: nat) { r.off + r.count <= nEntries && r.root <= r.count }

  predicate RowsOk(rows: seq<LaneRow>, nEntries: nat) {
    forall i | 0 <= i < |rows| :: RowOk(rows[i], nEntries)
  }

  function StreamsOf(rows: seq<LaneRow>, entries: seq<Entry>): seq<seq<Entry>>
    requires RowsOk(rows, |entries|)
  {
    seq(|rows|, i requires 0 <= i < |rows| => assert RowOk(rows[i], |entries|);
        entries[rows[i].off..rows[i].off + rows[i].count])
  }

  function RootsOf(rows: seq<LaneRow>): seq<nat> {
    seq(|rows|, i requires 0 <= i < |rows| => rows[i].root)
  }

  /** The lane table finds every lane again. */
  lemma {:induction false} LaneTabFinds(streams: seq<seq<Entry>>, roots: seq<nat>, before: seq<Entry>, all: seq<Entry>,
                                        i: nat)
    requires |streams| == |roots| && all == before + Flatten(streams) && i < |streams|
    ensures var r := LaneTab(streams, roots, |before|)[i];
            r.off + r.count <= |all| && all[r.off..r.off + r.count] == streams[i] && r.count == |streams[i]|
                && r.root == roots[i]
  {
    if i == 0 {
    } else {
      assert before + Flatten(streams) == before + streams[0] + Flatten(streams[1..]);
      LaneTabFinds(streams[1..], roots[1..], before + streams[0], all, i - 1);
      assert LaneTab(streams, roots, |before|)[i] == LaneTab(streams[1..], roots[1..], |before| + |streams[0]|)[i - 1];
    }
  }

  // ----- whole schedules ----------------------------------------------------------------------------

  predicate TaskInRange(t: Task, nBuffers: nat) {
    t.tileOp == TILE_EW ==> t.dst < nBuffers && t.a < nBuffers && t.b < nBuffers
  }

  predicate EntryInRange(e: Entry, nTasks: nat) {
    e.task in {TASK_NOP, TASK_BARRIER, TASK_WHILE, TASK_IF, TASK_FOR} || e.task < nTasks
  }

  predicate TasksInRange(tasks: seq<Task>, nBuffers: nat) {
    forall i | 0 <= i < |tasks| :: TaskInRange(tasks[i], nBuffers)
  }

  predicate EntriesInRange(entries: seq<Entry>, nTasks: nat) {
    forall i | 0 <= i < |entries| :: EntryInRange(entries[i], nTasks)
  }

  function HeaderFields(s: Schedule): (f: seq<nat>)
    ensures |f| == |HEADER|
  {
    [|s.tasks|, |Flatten(s.laneStreams)|, s.nFlags, s.nLanes]
  }

  function Sections(s: Schedule): seq<byte>
    requires |s.laneStreams| == |s.rootLens|
  {
    WriteAll(s.tasks, WriteTask)
        + (WriteAll(LaneTab(s.laneStreams, s.rootLens, 0), WriteLane) + WriteAll(Flatten(s.laneStreams), WriteEntry))
  }

  function Image(s: Schedule): seq<byte>
    requires |s.laneStreams| == |s.rootLens|
  {
    Pack(HeaderFields(s), HEADER) + Sections(s)
  }

  /** Every field fits its width. */
  predicate Fits(s: Schedule) {
    && |s.laneStreams| == |s.rootLens| == s.nLanes
    && FitAll(HeaderFields(s), HEADER) && AllGood(s.tasks, GoodTask) && AllGood(Flatten(s.laneStreams), GoodEntry)
    && AllGood(LaneTab(s.laneStreams, s.rootLens, 0), GoodLane)
  }

  /** What the reader checks beyond the layout. */
  predicate Sound(s: Schedule, nBuffers: nat) {
    && |s.laneStreams| == |s.rootLens| && (forall L | 0 <= L < |s.rootLens| :: s.rootLens[L] <= |s.laneStreams[L]|)
    && TasksInRange(s.tasks, nBuffers) && EntriesInRange(Flatten(s.laneStreams), |s.tasks|)
  }

  /** Puts the lanes one behind the other and notes where each is. */
  method JoinLanes(streams: seq<seq<Entry>>, roots: seq<nat>) returns (flat: seq<Entry>, rows: seq<LaneRow>)
    requires |streams| == |roots|
    ensures flat == Flatten(streams) && rows == LaneTab(streams, roots, 0)
  {
    flat, rows := [], [];
    var lane := 0;
    while lane < |streams|
      invariant 0 <= lane <= |streams|
      invariant flat == Flatten(streams[..lane])
      invariant rows + LaneTab(streams[lane..], roots[lane..], |flat|) == LaneTab(streams, roots, 0)
    {
      assert streams[..lane + 1] == streams[..lane] + [streams[lane]];
      assert streams[lane..][1..] == streams[lane + 1..] && roots[lane..][1..] == roots[lane + 1..];
      FlattenAppend(streams[..lane], streams[lane]);
      rows := rows + [LaneRow(|flat|, |streams[lane]|, roots[lane])];
      flat := flat + streams[lane];
      lane := lane + 1;
    }
    assert streams[..lane] == streams && streams[lane..] == [];
  }

  method SerializeSections(s: Schedule) returns (out: seq<byte>)
    requires |s.laneStreams| == |s.rootLens| == s.nLanes
    ensures out == Image(s)
  {
    hide Pack, WriteAll, Flatten, LaneTab;
    var flat, rows := JoinLanes(s.laneStreams, s.rootLens);
    out := Pack([|s.tasks|, |flat|, s.nFlags, s.nLanes], HEADER);
    var section := WriteLoop(s.tasks, WriteTask);
    out := out + section;
    section := WriteLoop(rows, WriteLane);
    out := out + section;
    section := WriteLoop(flat, WriteEntry);
    out := out + section;
    var h, t, r, e := Pack(HeaderFields(s), HEADER), WriteAll(s.tasks, WriteTask), WriteAll(rows, WriteLane),
        WriteAll(flat, WriteEntry);
    assert h + t + r + e == h + (t + (r + e));
  }

  /** The reader; `None` for every kind of malformed input. */
  function ParseSections(s0: seq<byte>, h: seq<nat>, nBuffers: nat): Option<Schedule>
    requires |h| == |HEADER|
  {
    match ReadAll(s0, h[0], ReadTask)
    case None => None
    case Some((tasks, s1)) =>
      match ReadAll(s1, h[3], ReadLane)
      case None => None
      case Some((rows, s2)) =>
        match ReadAll(s2, h[1], ReadEntry)
        case None => None
        case Some((entries, s3)) =>
          if s3 != [] || !TasksInRange(tasks, nBuffers) || !RowsOk(rows, |entries|) || !EntriesInRange(entries, |tasks|)
              then None
          else Some(Schedule(h[2], h[3], tasks, StreamsOf(rows, entries), RootsOf(rows)))
  }

  function ParseImage(data: seq<byte>, nBuffers: nat): Option<Schedule> {
    match ReadRecord(data, HEADER)
    case None => None
    case Some((h, s)) => ParseSections(s, h, nBuffers)
  }

  method ParseSchedule(data: seq<byte>, nBuffers: nat) returns (r: Option<Schedule>)
    ensures r == ParseImage(data, nBuffers)
  {
    hide ReadAll;
    var header := ReadRecord(data, HEADER);
    if header.None? {
      return None;
    }
    var (h, s) := header.value;
    var tasks := ReadLoop(s, h[0], ReadTask);
    if tasks.None? {
      return None;
    }
    var rows := ReadLoop(tasks.value.1, h[3], ReadLane);
    if rows.None? {
      return None;
    }
    var entries := ReadLoop(rows.value.1, h[1], ReadEntry);
    if entries.None? || entries.value.1 != [] {
      return None;
    }
    if !TasksInRange(tasks.value.0, nBuffers) || !RowsOk(rows.value.0, |entries.value.0|)
        || !EntriesInRange(entries.value.0, |tasks.value.0|) {
      return None;
    }
    r := Some(Schedule(h[2], h[3], tasks.value.0, StreamsOf(rows.value.0, entries.value.0), RootsOf(rows.value.0)));
  }

  lemma TableRestores(s: Schedule, nBuffers: nat)
    requires Sound(s, nBuffers)
    ensures var rows, all := LaneTab(s.laneStreams, s.rootLens, 0), Flatten(s.laneStreams);
            RowsOk(rows, |all|) && StreamsOf(rows, all) == s.laneStreams && RootsOf(rows) == s.rootLens
  {
    var rows, all := LaneTab(s.laneStreams, s.rootLens, 0), Flatten(s.laneStreams);
    assert [] + all == all;
    forall i | 0 <= i < |rows|
      ensures RowOk(rows[i], |all|) && all[rows[i].off..rows[i].off + rows[i].count] == s.laneStreams[i]
      ensures rows[i].root == s.rootLens[i]
    {
      LaneTabFinds(s.laneStreams, s.rootLens, [], all, i);
    }
  }

  /** Tasks, lane streams and root lengths come back as they were, and nothing may follow. */
  lemma RoundTrip(s: Schedule, nBuffers: nat, extra: seq<byte>)
    requires Fits(s) && Sound(s, nBuffers)
    ensures ParseImage(Image(s) + extra, nBuffers) == if extra == [] then Some(s) else None
  {
    hide Pack, Unpack, Size, WriteAll, FitAll, ParseSections, AllGood, LaneTab;
    assert Image(s) + extra == Pack(HeaderFields(s), HEADER) + (Sections(s) + extra);
    ReadPacked(HeaderFields(s), HEADER, Sections(s) + extra);
    SectionsRead(s, nBuffers, extra);
  }

  lemma SectionsRead(s: Schedule, nBuffers: nat, extra: seq<byte>)
    requires Fits(s) && Sound(s, nBuffers)
    ensures ParseSections(Sections(s) + extra, HeaderFields(s), nBuffers) == if extra == [] then Some(s) else None
  {
    hide Pack, Unpack, Size, WriteAll, ReadAll, ReadsBack, AllGood, FitAll, StreamsOf, RootsOf, RowsOk, TasksInRange,
        EntriesInRange, LaneTab;
    TasksReadBack();
    EntriesReadBack();
    LanesReadBack();
    TableRestores(s, nBuffers);
    var rows, all := LaneTab(s.laneStreams, s.rootLens, 0), Flatten(s.laneStreams);
    var t, r, e := WriteAll(s.tasks, WriteTask), WriteAll(rows, WriteLane), WriteAll(all, WriteEntry);
    assert Sections(s) + extra == t + (r + (e + extra));
    ReadWritten(s.tasks, WriteTask, ReadTask, GoodTask, r + (e + extra));
    ReadWritten(rows, WriteLane, ReadLane, GoodLane, e + extra);
    ReadWritten(all, WriteEntry, ReadEntry, GoodEntry, extra);
  }

  lemma {:induction false} LanesInRange(streams: seq<seq<Entry>>, nTasks: nat, nBuffers: nat)
    requires forall L | 0 <= L < |streams| :: StreamAccepted(streams[L], nTasks, nBuffers)
    ensures EntriesInRange(Flatten(streams), nTasks)
  {
    if streams == [] {
    } else {
      LanesInRange(streams[1..], nTasks, nBuffers);
      forall x | 0 <= x < |streams[0]|
        ensures EntryInRange(streams[0][x], nTasks)
      {
        assert EntryAccepted(streams[0][x], |streams[0]|, nTasks, nBuffers);
      }
    }
  }

  /** Every schedule that the scheduler builds, with fields that fit and buffers that exist, is
      read back as it was. */
  lemma BuiltRoundTrip(p: Program, n: pos, s: Schedule, owner: seq<nat>, blocks: seq<Block>, jobs: seq<Job>,
                       nBuffers: nat)
    requires Built(p, n, s, owner, blocks, jobs) && Fits(s) && TasksInRange(s.tasks, nBuffers)
    requires FlagsKnown(p, nBuffers)
    ensures ParseImage(Image(s), nBuffers) == Some(s)
  {
    ScheduleAccepted(p, n, s, owner, blocks, jobs, nBuffers);
    hide Built;
    LanesInRange(s.laneStreams, |s.tasks|, nBuffers);
    RoundTrip(s, nBuffers, []);
    assert Image(s) + [] == Image(s);
  }
}
