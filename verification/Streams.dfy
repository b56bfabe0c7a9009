/** Lane stream entries: a run of tiles of one task, or a control sentinel. */
module Streams {
  import opened Isa
  import opened Interleave

  const TASK_NOP := 0xFFFF_FFFF
  const TASK_BARRIER := 0xFFFF_FFFE
  const TASK_WHILE := 0xFFFF_FFFD
  const TASK_IF := 0xFFFF_FFFC
  const TASK_FOR := 0xFFFF_FFFB
  const FLAG_NONE := 0xFFFF_FFFF

  datatype Entry = Entry(task: nat, tileLo: nat, tileHi: nat, waitFlag: nat, waitCount: nat,
                         signalFlag: nat, slots: nat, pad: nat)
  {
    predicate IsControl() { task in {TASK_WHILE, TASK_IF, TASK_FOR} }
    predicate IsTile() { task < TASK_FOR }
  }

  function TileEntry(tid: nat, lo: nat, hi: nat): Entry {
    Entry(tid, lo, hi, FLAG_NONE, 0, FLAG_NONE, 0, 0)
  }

  const BARRIER_ENTRY := Entry(TASK_BARRIER, 0, 0, FLAG_NONE, 0, FLAG_NONE, 0, 0)

  predicate SomeEntry<T>(lanes: seq<seq<T>>) {
    exists L | 0 <= L < |lanes| :: |lanes[L]| > 0
  }

  /** Tiles [lo, hi) of one instruction, in order. */
  function TileSteps(i: nat, lo: nat, hi: nat): (s: seq<Step>)
    requires lo <= hi
    ensures |s| == hi - lo && forall k | 0 <= k < |s| :: s[k] == Step(i, lo + k)
    decreases hi - lo
  {
    if lo == hi then [] else [Step(i, lo)] + TileSteps(i, lo + 1, hi)
  }

  /** The steps a lane takes for a sequence of tile entries; `owner` maps a task id to the
      instruction it was made from. */
  function EntrySteps(owner: seq<nat>, es: seq<Entry>): seq<Step>
    requires forall e | e in es :: e.task < |owner| && e.tileLo <= e.tileHi
  {
    if es == [] then []
    else TileSteps(owner[es[0].task], es[0].tileLo, es[0].tileHi) + EntrySteps(owner, es[1..])
  }

  predicate EntriesOk(owner: seq<nat>, es: seq<Entry>) {
    forall e | e in es :: e.task < |owner| && e.tileLo <= e.tileHi
  }

  lemma {:induction false} EntryStepsConcat(owner: seq<nat>, es: seq<Entry>, fs: seq<Entry>)
    requires EntriesOk(owner, es) && EntriesOk(owner, fs)
    ensures EntriesOk(owner, es + fs)
    ensures EntrySteps(owner, es + fs) == EntrySteps(owner, es) + EntrySteps(owner, fs)
  {
    if es == [] {
      assert es + fs == fs;
    } else {
      assert (es + fs)[1..] == es[1..] + fs;
      EntryStepsConcat(owner, es[1..], fs);
    }
  }
}
