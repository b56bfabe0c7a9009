/** The host-dispatch engine's ring of in-flight segment tables. Uploads are asynchronous: the
    device reads the host's staging memory when it gets to the upload, at any later time. */
module HostRing {
  const SLOTS := 256

  /** One {offset, count} pair per lane. */
  type Table = seq<(nat, nat)>

  /** What the program asks for, in order: segment kernels and dedicated matmul kernels. */
  datatype Work = Segment(table: Table) | Matmul(task: nat)

  /** A queued command. `want` is the table that was staged for the kernel's phase. */
  datatype Command = Upload(lo: nat, count: nat) | Kernel(slot: nat, ghost want: Table) | Mm(task: nat)

  ghost function Wanted(queue: seq<Command>): seq<Work> {
    if queue == [] then []
    else WantedOf(queue[0]) + Wanted(queue[1..])
  }

  lemma {:induction false} WantedConcat(a: seq<Command>, b: seq<Command>)
    ensures Wanted(a + b) == Wanted(a) + Wanted(b)
  {
    if a == [] {
      assert a + b == b;
    } else {
      assert (a + b)[1..] == a[1..] + b;
      WantedConcat(a[1..], b);
    }
  }

  ghost function WantedOf(command: Command): seq<Work> {
    match command
    case Upload(_, _) => []
    case Kernel(_, want) => [Segment(want)]
    case Mm(t) => [Matmul(t)]
  }

  lemma RanNext(ran: seq<Work>, queue: seq<Command>, tail: seq<Work>)
    requires queue != []
    ensures ran + Wanted(queue) + tail == ran + WantedOf(queue[0]) + Wanted(queue[1..]) + tail
  {
    assert ran + (WantedOf(queue[0]) + Wanted(queue[1..])) == ran + WantedOf(queue[0]) + Wanted(queue[1..]);
  }

  lemma RanStaged(ran: seq<Work>, queue: seq<Command>, more: seq<Command>, tail: seq<Work>)
    requires Wanted(more) == tail
    ensures ran + Wanted(queue) + tail == ran + Wanted(queue + more) + []
  {
    WantedConcat(queue, more);
  }

  function Segments(tables: seq<Table>): (r: seq<Work>)
    ensures |r| == |tables| && forall i | 0 <= i < |r| :: r[i] == Segment(tables[i])
  {
    seq(|tables|, i requires 0 <= i < |tables| => Segment(tables[i]))
  }

  /** Before kernel `i` runs, its slot holds its table: it does already, or a pending upload
      ahead of it brings it there. */
  ghost predicate Served(queue: seq<Command>, device: seq<Table>, i: nat)
    requires i < |queue| && queue[i].Kernel? && queue[i].slot < |device|
  {
    device[queue[i].slot] == queue[i].want || exists j: nat :: UploadAhead(queue, i, j)
  }

  ghost predicate UploadAhead(queue: seq<Command>, i: nat, j: nat)
    requires i < |queue| && queue[i].Kernel?
  {
    j < i && queue[j].Upload? && queue[j].lo <= queue[i].slot < queue[j].lo + queue[j].count
  }

  /** Every pending command stays below `ring`, and what it reads from the host is what its
      phase staged. */
  ghost predicate QueueOk(queue: seq<Command>, host: seq<Table>, device: seq<Table>, ring: nat) {
    && |host| == |device| == SLOTS && ring <= SLOTS
    && forall i {:trigger CommandOk(queue, host, device, ring, i)} | 0 <= i < |queue| ::
      CommandOk(queue, host, device, ring, i)
  }

  ghost predicate CommandOk(queue: seq<Command>, host: seq<Table>, device: seq<Table>, ring: nat, i: nat)
    requires |host| == |device| == SLOTS && ring <= SLOTS && i < |queue|
  {
    match queue[i]
    case Upload(lo, count) => lo + count <= ring
    case Kernel(slot, want) => slot < ring && host[slot] == want && Served(queue, device, i)
    case Mm(_) => true
  }

  lemma QueueSizes(queue: seq<Command>, host: seq<Table>, device: seq<Table>, ring: nat)
    requires QueueOk(queue, host, device, ring)
    ensures |host| == |device| == SLOTS && ring <= SLOTS
  {
  }

  function Uploaded(device: seq<Table>, host: seq<Table>, lo: nat, count: nat): (r: seq<Table>)
    requires |host| == |device| && lo + count <= |device|
    ensures |r| == |device|
    ensures forall s | 0 <= s < |r| :: r[s] == if lo <= s < lo + count then host[s] else device[s]
  {
    device[..lo] + host[lo..lo + count] + device[lo + count..]
  }

  lemma UploadKeepsQueue(queue: seq<Command>, host: seq<Table>, device: seq<Table>, ring: nat)
    requires QueueOk(queue, host, device, ring) && queue != [] && queue[0].Upload?
    ensures queue[0].lo + queue[0].count <= SLOTS
    ensures QueueOk(queue[1..], host, Uploaded(device, host, queue[0].lo, queue[0].count), ring)
  {
    assert CommandOk(queue, host, device, ring, 0);
    var now := Uploaded(device, host, queue[0].lo, queue[0].count);
    forall i | 0 <= i < |queue[1..]|
      ensures CommandOk(queue[1..], host, now, ring, i)
    {
      assert CommandOk(queue, host, device, ring, i + 1);
      if queue[i + 1].Kernel? && device[queue[i + 1].slot] != queue[i + 1].want {
        var j: nat :| UploadAhead(queue, i + 1, j);
        if j > 0 {
          assert UploadAhead(queue[1..], i, j - 1);
        }
      }
    }
  }

  lemma OtherKeepsQueue(queue: seq<Command>, host: seq<Table>, device: seq<Table>, ring: nat)
    requires QueueOk(queue, host, device, ring) && queue != [] && !queue[0].Upload?
    ensures QueueOk(queue[1..], host, device, ring)
    ensures queue[0].Kernel? ==> queue[0].slot < SLOTS && device[queue[0].slot] == queue[0].want
  {
    assert CommandOk(queue, host, device, ring, 0);
    forall i | 0 <= i < |queue[1..]|
      ensures CommandOk(queue[1..], host, device, ring, i)
    {
      assert CommandOk(queue, host, device, ring, i + 1);
      if queue[i + 1].Kernel? && device[queue[i + 1].slot] != queue[i + 1].want {
        var j: nat :| UploadAhead(queue, i + 1, j);
        assert j > 0;
        assert UploadAhead(queue[1..], i, j - 1);
      }
    }
  }

  /** Appending commands, growing the ring, and staging above the ring keep the queue. */
  lemma QueueGrows(queue: seq<Command>, more: seq<Command>, host: seq<Table>, host': seq<Table>, device: seq<Table>,
                   ring: nat, ring': nat)
    requires QueueOk(queue, host, device, ring) && ring <= ring' <= SLOTS && |host'| == SLOTS
    requires forall s | 0 <= s < ring :: host'[s] == host[s]
    requires forall i {:trigger CommandOk(queue + more, host', device, ring', i)} | |queue| <= i < |queue + more| ::
        CommandOk(queue + more, host', device, ring', i)
    ensures QueueOk(queue + more, host', device, ring')
  {
    forall i | 0 <= i < |queue + more|
      ensures CommandOk(queue + more, host', device, ring', i)
    {
      if i < |queue| {
        assert CommandOk(queue, host, device, ring, i);
        if queue[i].Kernel? && device[queue[i].slot] != queue[i].want {
          var j: nat :| UploadAhead(queue, i, j);
          assert UploadAhead(queue + more, i, j);
        }
      }
    }
  }

  /** The kernels of one staged group. */
  function GroupKernels(host: seq<Table>, ring: nat, count: nat): (r: seq<Command>)
    requires ring + count <= |host|
    ensures |r| == count && forall i | 0 <= i < count :: r[i] == Kernel(ring + i, host[ring + i])
  {
    seq(count, i requires 0 <= i < count => Kernel(ring + i, host[ring + i]))
  }

  lemma {:induction false} WantedGroup(host: seq<Table>, ring: nat, count: nat)
    requires ring + count <= |host|
    ensures Wanted(GroupKernels(host, ring, count)) == Segments(host[ring..ring + count])
    decreases count
  {
    if count == 0 {
    } else {
      assert GroupKernels(host, ring, count)[1..] == GroupKernels(host, ring + 1, count - 1);
      WantedGroup(host, ring + 1, count - 1);
    }
  }

  lemma GroupQueued(queue: seq<Command>, host: seq<Table>, device: seq<Table>, ring: nat, count: nat)
    requires QueueOk(queue, host, device, ring) && ring + count <= SLOTS
    ensures QueueOk(queue + ([Upload(ring, count)] + GroupKernels(host, ring, count)), host, device, ring + count)
  {
    var more := [Upload(ring, count)] + GroupKernels(host, ring, count);
    var all, end := queue + more, ring + count;
    forall i | |queue| <= i < |all|
      ensures CommandOk(all, host, device, end, i)
    {
      if i > |queue| {
        assert all[i] == Kernel(ring + (i - |queue| - 1), host[ring + (i - |queue| - 1)]);
        assert UploadAhead(all, i, |queue|);
      }
    }
    QueueGrows(queue, more, host, host, device, ring, ring + count);
  }

  class Dispatcher {
    var ring: nat
    var staged: nat
    var segStream: seq<Table>
    var segTab: seq<Table>
    var queue: seq<Command>
    /** What the kernels that have run so far were given. */
    var ran: seq<Work>
    ghost var program: seq<Work>

    ghost predicate Valid()
      reads this
    {
      && ring + staged <= SLOTS
      && QueueOk(queue, segStream, segTab, ring)
      && program == ran + Wanted(queue) + Segments(segStream[ring..ring + staged])
    }

    constructor (blank: Table)
      ensures Valid() && program == [] && ran == [] && queue == []
    {
      ring, staged := 0, 0;
      segStream, segTab := seq(SLOTS, i => blank), seq(SLOTS, i => blank);
      queue, ran, program := [], [], [];
    }

    /** The device takes the next command off its queue. This may happen between any two steps
        of the host. */
    method Progress()
      requires Valid() && queue != []
      modifies `queue, `segTab, `ran
      ensures Valid() && |queue| == |old(queue)| - 1 && queue == old(queue)[1..]
    {
      hide QueueOk, Wanted, Segments;
      var command := queue[0];
      QueueSizes(queue, segStream, segTab, ring);
      RanNext(ran, queue, Segments(segStream[ring..ring + staged]));
      match command {
        case Upload(lo, count) =>
          UploadKeepsQueue(queue, segStream, segTab, ring);
          segTab := Uploaded(segTab, segStream, lo, count);
        case Kernel(slot, _) =>
          OtherKeepsQueue(queue, segStream, segTab, ring);
          ran := ran + [Segment(segTab[slot])];
        case Mm(task) =>
          OtherKeepsQueue(queue, segStream, segTab, ring);
          ran := ran + [Matmul(task)];
      }
      queue := queue[1..];
    }

    /** Waits for the queue to run empty; the ring starts over. */
    method Drain()
      requires Valid() && staged == 0
      modifies `queue, `segTab, `ran, `ring
      ensures Valid() && queue == [] && ring == 0 && staged == 0 && ran == program
    {
      while queue != []
        invariant Valid() && staged == 0
        decreases |queue|
      {
        Progress();
      }
      ring := 0;
    }

    /** Queues the staged group: one upload, one kernel per phase. */
    method FlushGroup(drain: bool)
      requires Valid()
      modifies `queue, `segTab, `ran, `ring, `staged
      ensures Valid() && staged == 0
      ensures drain ==> queue == [] && ring == 0 && ran == program
    {
      hide CommandOk;
      if staged > 0 {
        ghost var more := [Upload(ring, staged)] + GroupKernels(segStream, ring, staged);
        GroupQueued(queue, segStream, segTab, ring, staged);
        WantedGroup(segStream, ring, staged);
        assert more[1..] == GroupKernels(segStream, ring, staged);
        RanStaged(ran, queue, more, Segments(segStream[ring..ring + staged]));
        queue := queue + ([Upload(ring, staged)] + GroupKernels(segStream, ring, staged));
        ring := ring + staged;
        staged := 0;
      }
      if drain {
        Drain();
      }
    }

    /** Stages the table of one phase, draining first when the ring is full. */
    method LaunchSegment(table: Table)
      requires Valid()
      modifies this
      ensures Valid() && program == old(program) + [Segment(table)]
    {
      if ring + staged == SLOTS {
        FlushGroup(true);
      }
      ghost var was := segStream;
      segStream := segStream[ring + staged := table];
      staged := staged + 1;
      program := program + [Segment(table)];
      assert queue + [] == queue;
      QueueGrows(queue, [], was, segStream, segTab, ring, ring);
      assert segStream[ring..ring + staged] == was[ring..ring + staged - 1] + [table];
      assert Segments(segStream[ring..ring + staged]) == Segments(was[ring..ring + staged - 1]) + [Segment(table)];
    }

    /** Peels a phase of matmuls off to its dedicated kernel, behind everything staged. */
    method LaunchMatmul(task: nat)
      requires Valid()
      modifies this
      ensures Valid() && program == old(program) + [Matmul(task)]
    {
      FlushGroup(false);
      assert CommandOk(queue + [Mm(task)], segStream, segTab, ring, |queue|);
      QueueGrows(queue, [Mm(task)], segStream, segStream, segTab, ring, ring);
      WantedConcat(queue, [Mm(task)]);
      assert Wanted([Mm(task)]) == [Matmul(task)] + Wanted([]);
      queue := queue + [Mm(task)];
      program := program + [Matmul(task)];
      assert segStream[ring..ring + staged] == [];
    }

    /** The blocking read of a loop condition or branch flag: everything launched so far has
        run, in order, each kernel with its own phase's table. */
    method ReadFlag()
      requires Valid()
      modifies `queue, `segTab, `ran, `ring, `staged
      ensures Valid() && ran == program && queue == [] && ring == 0 && staged == 0
    {
      FlushGroup(false);
      Drain();
    }
  }

  /** Host actions and device progress, in any order. */
  datatype Action = Stage(table: Table) | Route(task: nat) | Read | Device

  function Asked(actions: seq<Action>): seq<Work> {
    if actions == [] then []
    else
      var k := |actions| - 1;
      Asked(actions[..k]) + AskedOf(actions[k])
  }

  function AskedOf(action: Action): seq<Work> {
    match action
    case Stage(t) => [Segment(t)]
    case Route(t) => [Matmul(t)]
    case _ => []
  }

  method Act(d: Dispatcher, action: Action)
    requires d.Valid()
    modifies d
    ensures d.Valid() && d.program == old(d.program) + AskedOf(action)
  {
    match action {
      case Stage(table) => d.LaunchSegment(table);
      case Route(task) => d.LaunchMatmul(task);
      case Read => d.ReadFlag();
      case Device =>
        if d.queue != [] {
          d.Progress();
        }
    }
  }

  /** Drives the dispatcher through any sequence of actions and ends with the final drain: the
      kernels ran exactly as asked, in program order, each reading the table of its phase. */
  method Drive(actions: seq<Action>, blank: Table) returns (ran: seq<Work>)
    ensures ran == Asked(actions)
  {
    var d := new Dispatcher(blank);
    var k := 0;
    while k < |actions|
      invariant 0 <= k <= |actions| && d.Valid() && fresh(d)
      invariant d.program == Asked(actions[..k])
    {
      assert actions[..k + 1][..k] == actions[..k];
      Act(d, actions[k]);
      k := k + 1;
    }
    assert actions[..k] == actions;
    d.FlushGroup(true);
    ran := d.ran;
  }
}
