/** An instruction range as a sequence of levels: phases of compute instructions, and region
    instructions, each alone. */
module Levels {
  import opened Isa
  import opened PhaseCut
  import opened Chains
  import opened PhaseUnits
  import opened OnePhase
  import opened Reference

  datatype Level = Compute(part: seq<nat>) | Region(idx: nat)

  function ComputeLevels(parts: seq<seq<nat>>): (levels: seq<Level>)
    ensures |levels| == |parts| && forall x | 0 <= x < |parts| :: levels[x] == Compute(parts[x])
  {
    seq(|parts|, x requires 0 <= x < |parts| => Compute(parts[x]))
  }

  /** The levels of a pending compute run `seg` followed by `rest`. */
  function LevelsFrom(p: Program, seg: seq<nat>, rest: seq<nat>): seq<Level>
    requires InRange(p, seg) && InRange(p, rest)
    decreases |rest|
  {
    if rest == [] then ComputeLevels(Greedy(p, [], seg))
    else if p.instrs[rest[0]].IsRegion() then
      ComputeLevels(Greedy(p, [], seg)) + [Region(rest[0])] + LevelsFrom(p, [], rest[1..])
    else if p.instrs[rest[0]].op == Nop then LevelsFrom(p, seg, rest[1..])
    else LevelsFrom(p, seg + [rest[0]], rest[1..])
  }

  method BuildLevels(p: Program, indices: seq<nat>) returns (levels: seq<Level>)
    requires InRange(p, indices)
    ensures levels == LevelsFrom(p, [], indices)
  {
    levels := [];
    var seg: seq<nat> := [];
    var k := 0;
    while k < |indices|
      invariant 0 <= k <= |indices| && InRange(p, seg)
      invariant levels + LevelsFrom(p, seg, indices[k..]) == LevelsFrom(p, [], indices)
    {
      var i := indices[k];
      assert indices[k..][1..] == indices[k + 1..];
      if p.instrs[i].IsRegion() {
        var phases := Phases(p, seg);
        assert levels + (ComputeLevels(phases) + [Region(i)] + LevelsFrom(p, [], indices[k + 1..]))
            == levels + ComputeLevels(phases) + [Region(i)] + LevelsFrom(p, [], indices[k + 1..]);
        levels := levels + ComputeLevels(phases) + [Region(i)];
        seg := [];
      } else if p.instrs[i].op != Nop {
        seg := seg + [i];
      }
      k := k + 1;
    }
    var phases := Phases(p, seg);
    levels := levels + ComputeLevels(phases);
  }

  function LevelInstrs(levels: seq<Level>): seq<nat> {
    if levels == [] then []
    else (match levels[0] case Compute(part) => part case Region(i) => [i]) + LevelInstrs(levels[1..])
  }

  lemma {:induction false} LevelInstrsConcat(a: seq<Level>, b: seq<Level>)
    ensures LevelInstrs(a + b) == LevelInstrs(a) + LevelInstrs(b)
  {
    if a == [] {
      assert a + b == b;
    } else {
      assert (a + b)[1..] == a[1..] + b;
      LevelInstrsConcat(a[1..], b);
    }
  }

  lemma {:induction false} ComputeInstrs(parts: seq<seq<nat>>)
    ensures LevelInstrs(ComputeLevels(parts)) == Flatten(parts)
  {
    if parts == [] {
    } else {
      assert ComputeLevels(parts)[1..] == ComputeLevels(parts[1..]);
      ComputeInstrs(parts[1..]);
    }
  }

  /** A level the scheduler can emit. */
  predicate LevelOk(p: Program, level: Level) {
    match level
    case Compute(part) => part != [] && CleanPhase(p, part)
    case Region(i) => i < |p.instrs| && p.instrs[i].IsRegion()
  }

  predicate LevelsOk(p: Program, levels: seq<Level>) {
    forall x | 0 <= x < |levels| :: LevelOk(p, levels[x])
  }

  predicate Known(p: Program, indices: seq<nat>) {
    InRange(p, indices) && forall x | 0 <= x < |indices| :: p.instrs[indices[x]].IsCompute() ==>
        Schedulable(p.tg, p.instrs[indices[x]])
  }

  lemma {:induction false} PartIsSlice(parts: seq<seq<nat>>, x: nat) returns (lo: nat)
    requires x < |parts|
    ensures lo + |parts[x]| <= |Flatten(parts)|
    ensures parts[x] == Flatten(parts)[lo..lo + |parts[x]|]
  {
    if x == 0 {
      lo := 0;
    } else {
      lo := PartIsSlice(parts[1..], x - 1);
      lo := lo + |parts[0]|;
    }
  }

  lemma CutLevelsOk(p: Program, seg: seq<nat>)
    requires AllSchedulable(p, seg) && StrictlyAscending(seg)
    ensures LevelsOk(p, ComputeLevels(Greedy(p, [], seg)))
    ensures LevelInstrs(ComputeLevels(Greedy(p, [], seg))) == seg
  {
    var parts := Greedy(p, [], seg);
    GreedyCuts(p, [], seg);
    ComputeInstrs(parts);
    forall x | 0 <= x < |parts|
      ensures LevelOk(p, ComputeLevels(parts)[x])
    {
      var lo := PartIsSlice(parts, x);
      forall y | 0 <= y < |parts[x]|
        ensures parts[x][y] == seg[lo + y]
      {
      }
    }
  }

  lemma LevelsOkConcat(p: Program, a: seq<Level>, b: seq<Level>)
    requires LevelsOk(p, a) && LevelsOk(p, b)
    ensures LevelsOk(p, a + b)
  {
  }

  lemma AscendingParts(a: seq<nat>, b: seq<nat>)
    requires StrictlyAscending(a + b)
    ensures StrictlyAscending(a) && StrictlyAscending(b)
  {
    forall x, y | 0 <= x < y < |a|
      ensures a[x] < a[y]
    {
      assert (a + b)[x] < (a + b)[y];
    }
    forall x, y | 0 <= x < y < |b|
      ensures b[x] < b[y]
    {
      assert (a + b)[|a| + x] < (a + b)[|a| + y];
    }
  }

  lemma AscendingSkip(a: seq<nat>, b: seq<nat>)
    requires b != [] && StrictlyAscending(a + b)
    ensures StrictlyAscending(a + b[1..])
  {
    var s := a + b[1..];
    forall x, y | 0 <= x < y < |s|
      ensures s[x] < s[y]
    {
      assert (a + b)[if x < |a| then x else x + 1] < (a + b)[if y < |a| then y else y + 1];
    }
  }

  /** The levels carry the live instructions of the range, in order, and every level can be
      emitted. */
  lemma {:induction false} LevelsCarry(p: Program, seg: seq<nat>, rest: seq<nat>)
    requires AllSchedulable(p, seg) && Known(p, rest)
    requires StrictlyAscending(seg + rest)
    ensures LevelInstrs(LevelsFrom(p, seg, rest)) == seg + Live(p, rest)
    ensures LevelsOk(p, LevelsFrom(p, seg, rest))
    decreases |rest|, 2
  {
    if rest == [] {
      AscendingParts(seg, rest);
      CutLevelsOk(p, seg);
    } else if p.instrs[rest[0]].IsRegion() {
      AscendingParts(seg, rest);
      CarryRegion(p, seg, rest);
    } else if p.instrs[rest[0]].op == Nop {
      AscendingSkip(seg, rest);
      LevelsCarry(p, seg, rest[1..]);
    } else {
      assert seg + [rest[0]] + rest[1..] == seg + rest;
      LevelsCarry(p, seg + [rest[0]], rest[1..]);
    }
  }

  lemma Regroup(a: seq<nat>, b: seq<nat>, c: seq<nat>)
    ensures a + b + c == a + (b + c)
  {
  }

  lemma RegionOk(p: Program, i: nat)
    requires i < |p.instrs| && p.instrs[i].IsRegion()
    ensures LevelOk(p, Region(i))
  {
  }

  lemma JoinRegion(p: Program, before: seq<Level>, i: nat, after: seq<Level>)
    requires LevelsOk(p, before) && LevelsOk(p, after) && i < |p.instrs| && p.instrs[i].IsRegion()
    ensures LevelInstrs(before + [Region(i)] + after) == LevelInstrs(before) + ([i] + LevelInstrs(after))
    ensures LevelsOk(p, before + [Region(i)] + after)
  {
    hide LevelOk;
    RegionOk(p, i);
    LevelInstrsConcat(before + [Region(i)], after);
    LevelInstrsConcat(before, [Region(i)]);
    assert LevelInstrs([Region(i)]) == [i];
    Regroup(LevelInstrs(before), [i], LevelInstrs(after));
    LevelsOkConcat(p, before, [Region(i)]);
    LevelsOkConcat(p, before + [Region(i)], after);
  }

  lemma KnownInRange(p: Program, seg: seq<nat>, rest: seq<nat>)
    requires AllSchedulable(p, seg) && Known(p, rest)
    ensures InRange(p, seg) && InRange(p, rest)
  {
  }

  lemma RegionUnfolds(p: Program, seg: seq<nat>, rest: seq<nat>)
    requires InRange(p, seg) && InRange(p, rest) && rest != [] && p.instrs[rest[0]].IsRegion()
    ensures LevelsFrom(p, seg, rest)
        == ComputeLevels(Greedy(p, [], seg)) + [Region(rest[0])] + LevelsFrom(p, [], rest[1..])
    ensures Live(p, rest) == [rest[0]] + Live(p, rest[1..])
  {
    hide Greedy, ComputeLevels;
  }

  lemma {:induction false} CarryRegion(p: Program, seg: seq<nat>, rest: seq<nat>)
    requires AllSchedulable(p, seg) && Known(p, rest) && rest != [] && p.instrs[rest[0]].IsRegion()
    requires StrictlyAscending(seg) && StrictlyAscending(rest)
    ensures LevelInstrs(LevelsFrom(p, seg, rest)) == seg + Live(p, rest)
    ensures LevelsOk(p, LevelsFrom(p, seg, rest))
    decreases |rest|, 1
  {
    hide Greedy, ComputeLevels, LevelsOk, LevelInstrs, Known, AllSchedulable, StrictlyAscending, LevelsFrom, Live;
    KnownInRange(p, seg, rest);
    CutLevelsOk(p, seg);
    TailCarries(p, rest);
    RegionUnfolds(p, seg, rest);
    JoinRegion(p, ComputeLevels(Greedy(p, [], seg)), rest[0], LevelsFrom(p, [], rest[1..]));
  }

  lemma KnownTail(p: Program, rest: seq<nat>)
    requires Known(p, rest) && rest != [] && StrictlyAscending(rest)
    ensures Known(p, rest[1..]) && StrictlyAscending(rest[1..])
  {
  }

  lemma EmptyPrefix(s: seq<nat>)
    ensures [] + s == s
  {
  }

  lemma {:induction false} TailCarries(p: Program, rest: seq<nat>)
    requires Known(p, rest) && rest != [] && StrictlyAscending(rest)
    ensures LevelInstrs(LevelsFrom(p, [], rest[1..])) == Live(p, rest[1..])
    ensures LevelsOk(p, LevelsFrom(p, [], rest[1..]))
    decreases |rest|, 0
  {
    var tail := rest[1..];
    KnownTail(p, rest);
    EmptyPrefix(tail);
    EmptyPrefix(Live(p, tail));
    LevelsCarry(p, [], tail);
  }
}
