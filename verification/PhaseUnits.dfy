/** The units of one phase (shaped operations alone, elementwise operations in fused chains)
    and the order independence of the packed phase. */
module PhaseUnits {
  import opened Arith
  import opened Isa
  import opened Interleave
  import opened Streams
  import opened PhaseCut
  import opened Chains
  import opened Packing
  import opened OnePhase

  /** The elementwise operations of a phase, or the others, in program order. */
  function Pick(p: Program, part: seq<nat>, maps: bool): (s: seq<nat>)
    requires InRange(p, part)
    ensures InRange(p, s)
    ensures forall x | 0 <= x < |s| :: s[x] in part && IsMap(p.tg, p.instrs[s[x]]) == maps
  {
    if part == [] then []
    else
      var rest := Pick(p, part[1..], maps);
      if IsMap(p.tg, p.instrs[part[0]]) == maps then [part[0]] + rest else rest
  }

  lemma {:induction false} PickAscending(p: Program, part: seq<nat>, maps: bool)
    requires InRange(p, part) && StrictlyAscending(part)
    ensures StrictlyAscending(Pick(p, part, maps))
  {
    if part == [] {
    } else {
      PickAscending(p, part[1..], maps);
    }
  }

  lemma {:induction false} PickCounts(p: Program, part: seq<nat>, e: nat)
    requires InRange(p, part)
    ensures multiset(Pick(p, part, false))[e] + multiset(Pick(p, part, true))[e] == multiset(part)[e]
  {
    hide IsMap;
    if part == [] {
    } else {
      var i, rest := part[0], part[1..];
      PickCounts(p, rest, e);
      assert part == [i] + rest;
      var mapped := IsMap(p.tg, p.instrs[i]);
      assert Pick(p, part, mapped) == [i] + Pick(p, rest, mapped);
      assert Pick(p, part, !mapped) == Pick(p, rest, !mapped);
    }
  }

  lemma PickSplits(p: Program, part: seq<nat>)
    requires InRange(p, part)
    ensures multiset(Pick(p, part, false)) + multiset(Pick(p, part, true)) == multiset(part)
  {
    forall e
      ensures multiset(Pick(p, part, false))[e] + multiset(Pick(p, part, true))[e] == multiset(part)[e]
    {
      PickCounts(p, part, e);
    }
  }

  function Singles(s: seq<nat>): (r: seq<seq<nat>>)
    ensures |r| == |s| && forall x | 0 <= x < |s| :: r[x] == [s[x]]
  {
    seq(|s|, x requires 0 <= x < |s| => [s[x]])
  }

  lemma {:induction false} FlattenSingles(s: seq<nat>)
    ensures Flatten(Singles(s)) == s
  {
    if s == [] {
    } else {
      assert Singles(s)[1..] == Singles(s[1..]);
      FlattenSingles(s[1..]);
    }
  }

  lemma {:induction false} FlattenConcat<T>(a: seq<seq<T>>, b: seq<seq<T>>)
    ensures Flatten(a + b) == Flatten(a) + Flatten(b)
  {
    if a == [] {
      assert a + b == b;
    } else {
      assert (a + b)[1..] == a[1..] + b;
      FlattenConcat(a[1..], b);
    }
  }

  /** What packing needs of the chains of a phase. */
  ghost predicate GoodChains(p: Program, part: seq<nat>, chains: seq<seq<nat>>)
    requires AllSchedulable(p, part)
  {
    && multiset(Flatten(chains)) == multiset(part)
    && (forall c | 0 <= c < |chains| :: GoodChain(p, chains[c]))
    && (forall c, d, i, j | 0 <= c < |chains| && 0 <= d < |chains| && c != d && i in chains[c] && j in chains[d] ::
          Unlinked(p, i, j))
  }

  predicate GoodChain(p: Program, chain: seq<nat>) {
    && chain != [] && StrictlyAscending(chain) && AllSchedulable(p, chain)
    && forall x | 0 <= x < |chain| :: Tiles(p.tg, p.instrs[chain[x]]) == Tiles(p.tg, p.instrs[chain[0]])
  }

  predicate Unlinked(p: Program, i: nat, j: nat) {
    && i < |p.instrs| && j < |p.instrs| && i != j
    && (IsMap(p.tg, p.instrs[i]) && IsMap(p.tg, p.instrs[j]) ==> p.instrs[i].dst !in Reads(p.tg, p.instrs[j]))
  }

  predicate CleanPhase(p: Program, part: seq<nat>) {
    AllSchedulable(p, part) && StrictlyAscending(part) && Legal(p, part)
  }

  /** Two elementwise operations of a phase that depend on each other have one element count
      and different destinations. */
  lemma MapsAgree(p: Program, part: seq<nat>, i: nat, j: nat)
    requires CleanPhase(p, part) && i in part && j in part && i != j
    requires IsMap(p.tg, p.instrs[i]) && IsMap(p.tg, p.instrs[j])
    ensures p.instrs[i].dst != p.instrs[j].dst
    ensures Related(p, p.instrs[i], p.instrs[j]) ==> p.instrs[i].n == p.instrs[j].n
  {
    var lo, hi := if i < j then i else j, if i < j then j else i;
    NoCrossLaneDep(p, part, lo, hi);
    var a, b := p.instrs[lo], p.instrs[hi];
    assert Writes(a) == {a.dst} && Writes(b) == {b.dst};
    assert a.dst == b.dst ==> a.dst in Writes(b) * Writes(a);
    assert a.dst in Reads(p.tg, b) ==> a.dst in Reads(p.tg, b) * Writes(a);
    assert b.dst in Reads(p.tg, a) ==> b.dst in Reads(p.tg, a) * Writes(b);
  }

  lemma LinkedWhenRead(p: Program, part: seq<nat>, i: nat, j: nat)
    requires CleanPhase(p, part) && i in Pick(p, part, true) && j in Pick(p, part, true) && i != j
    requires p.instrs[i].dst in Reads(p.tg, p.instrs[j])
    ensures Linked(p, Pick(p, part, true), i, j)
  {
    var maps := Pick(p, part, true);
    PickAscending(p, part, true);
    forall x, y | 0 <= x < y < |maps|
      ensures Writes(p.instrs[maps[x]]) !! Writes(p.instrs[maps[y]])
    {
      MapsAgree(p, part, maps[x], maps[y]);
    }
    WriterUnique(p, maps, i, p.instrs[i].dst);
  }

  lemma LinkedAgree(p: Program, part: seq<nat>, w: nat, j: nat)
    requires CleanPhase(p, part) && Linked(p, Pick(p, part, true), w, j)
    ensures w < |p.instrs| && j < |p.instrs| && p.instrs[w].n == p.instrs[j].n
  {
    var maps := Pick(p, part, true);
    var b :| b in Reads(p.tg, p.instrs[j]) && b in WriterTable(p, maps) && WriterTable(p, maps)[b] == w;
    WriterMember(p, maps, b);
    MapsAgree(p, part, w, j);
  }

  lemma ComponentCount(p: Program, part: seq<nat>, comps: seq<seq<nat>>, c: nat, i: nat, j: nat)
    requires CleanPhase(p, part) && AreChains(p, Pick(p, part, true), comps)
    requires c < |comps| && i in comps[c] && j in comps[c] && i < |p.instrs| && j < |p.instrs|
    ensures p.instrs[i].n == p.instrs[j].n
  {
    var tag: nat -> nat := (i: nat) => if i < |p.instrs| then p.instrs[i].n else 0;
    assert Respects(p, Pick(p, part, true), tag) by {
      forall w: nat, j: nat | Linked(p, Pick(p, part, true), w, j)
        ensures tag(w) == tag(j)
      {
        LinkedAgree(p, part, w, j);
      }
    }
    ChainsKeepTags(p, Pick(p, part, true), comps, tag, c, i, j);
  }

  lemma SameTiles(p: Program, part: seq<nat>, i: nat, j: nat)
    requires AllSchedulable(p, part) && i in Pick(p, part, true) && j in Pick(p, part, true)
    requires p.instrs[i].n == p.instrs[j].n
    ensures Schedulable(p.tg, p.instrs[i]) && Schedulable(p.tg, p.instrs[j])
    ensures Tiles(p.tg, p.instrs[i]) == Tiles(p.tg, p.instrs[j])
  {
    assert i in part && j in part;
  }

  lemma UniformChain(p: Program, part: seq<nat>, chain: seq<nat>)
    requires CleanPhase(p, part) && chain != [] && StrictlyAscending(chain)
    requires forall x | 0 <= x < |chain| ::
        chain[x] in Pick(p, part, true) && p.instrs[chain[x]].n == p.instrs[chain[0]].n
    ensures GoodChain(p, chain)
  {
    hide CleanPhase, Pick;
    CleanInRange(p, part);
    forall x | 0 <= x < |chain|
      ensures Schedulable(p.tg, p.instrs[chain[x]])
      ensures Tiles(p.tg, p.instrs[chain[x]]) == Tiles(p.tg, p.instrs[chain[0]])
    {
      SameTiles(p, part, chain[0], chain[x]);
    }
  }

  /** An element of the flattening is in one of the parts. */
  lemma {:induction false} FlattenFinds(parts: seq<seq<nat>>, i: nat) returns (c: nat)
    requires i in Flatten(parts)
    ensures c < |parts| && i in parts[c]
  {
    if i in parts[0] {
      c := 0;
    } else {
      c := FlattenFinds(parts[1..], i);
      c := c + 1;
    }
  }

  lemma {:induction false} FlattenMember<T(!new)>(chains: seq<seq<T>>, c: nat, i: T)
    requires c < |chains| && i in chains[c]
    ensures i in multiset(Flatten(chains))
    ensures forall d | 0 <= d < |chains| && d != c && i in chains[d] :: multiset(Flatten(chains))[i] >= 2
  {
    if c > 0 {
      FlattenMember(chains[1..], c - 1, i);
    } else {
      forall d | 0 <= d < |chains| && d != c && i in chains[d]
        ensures multiset(Flatten(chains))[i] >= 2
      {
        FlattenMember(chains[1..], d - 1, i);
      }
    }
  }

  lemma {:induction false} AscendingOnce(s: seq<nat>, i: nat)
    requires StrictlyAscending(s)
    ensures multiset(s)[i] <= 1
  {
    if s == [] {
    } else {
      assert s == [s[0]] + s[1..];
      AscendingOnce(s[1..], i);
    }
  }

  /** Different chains of a permutation of an ascending list share no member. */
  lemma ChainsDisjoint(part: seq<nat>, chains: seq<seq<nat>>, c: nat, d: nat, i: nat)
    requires StrictlyAscending(part) && multiset(Flatten(chains)) == multiset(part)
    requires c < |chains| && d < |chains| && i in chains[c] && i in chains[d]
    ensures c == d && i in part
  {
    FlattenMember(chains, c, i);
    AscendingOnce(part, i);
    assert i in multiset(part);
  }

  lemma ComponentMembers(p: Program, part: seq<nat>, comps: seq<seq<nat>>, c: nat)
    requires CleanPhase(p, part) && AreChains(p, Pick(p, part, true), comps) && c < |comps|
    ensures forall i | i in comps[c] :: i in Pick(p, part, true)
  {
    PickAscending(p, part, true);
    forall i | i in comps[c]
      ensures i in Pick(p, part, true)
    {
      ChainsDisjoint(Pick(p, part, true), comps, c, c, i);
    }
  }

  lemma ComponentUniform(p: Program, part: seq<nat>, comps: seq<seq<nat>>, c: nat)
    requires CleanPhase(p, part) && AreChains(p, Pick(p, part, true), comps) && c < |comps|
    ensures GoodChain(p, comps[c])
  {
    ComponentMembers(p, part, comps, c);
    var chain := comps[c];
    forall x | 0 <= x < |chain|
      ensures chain[x] in Pick(p, part, true) && p.instrs[chain[x]].n == p.instrs[chain[0]].n
    {
      ComponentCount(p, part, comps, c, chain[x], chain[0]);
    }
    UniformChain(p, part, chain);
  }

  lemma ChainsPermute(p: Program, part: seq<nat>, comps: seq<seq<nat>>)
    requires CleanPhase(p, part) && AreChains(p, Pick(p, part, true), comps)
    ensures multiset(Flatten(Singles(Pick(p, part, false)) + comps)) == multiset(part)
  {
    FlattenSingles(Pick(p, part, false));
    FlattenConcat(Singles(Pick(p, part, false)), comps);
    PickSplits(p, part);
  }

  lemma EachChainGood(p: Program, part: seq<nat>, comps: seq<seq<nat>>, c: nat)
    requires CleanPhase(p, part) && AreChains(p, Pick(p, part, true), comps)
    requires c < |Pick(p, part, false)| + |comps|
    ensures GoodChain(p, (Singles(Pick(p, part, false)) + comps)[c])
  {
    var shaped := Pick(p, part, false);
    if c < |shaped| {
      assert shaped[c] in part;
    } else {
      ComponentUniform(p, part, comps, c - |shaped|);
    }
  }

  lemma MapsUnlinked(p: Program, part: seq<nat>, comps: seq<seq<nat>>, c: nat, d: nat, i: nat, j: nat)
    requires CleanPhase(p, part) && AreChains(p, Pick(p, part, true), comps)
    requires c < |comps| && d < |comps| && c != d && i in comps[c] && j in comps[d] && i != j
    ensures Unlinked(p, i, j)
  {
    ComponentMembers(p, part, comps, c);
    ComponentMembers(p, part, comps, d);
    if p.instrs[i].dst in Reads(p.tg, p.instrs[j]) {
      LinkedWhenRead(p, part, i, j);
    }
  }

  /** The shaped operations of a phase alone, then its elementwise components. */
  function ChainsOf(p: Program, part: seq<nat>, comps: seq<seq<nat>>): (chains: seq<seq<nat>>)
    requires InRange(p, part)
    ensures |chains| == |Pick(p, part, false)| + |comps|
  {
    Singles(Pick(p, part, false)) + comps
  }

  lemma PairUnlinked(p: Program, part: seq<nat>, comps: seq<seq<nat>>, c: nat, d: nat, i: nat, j: nat)
    requires CleanPhase(p, part) && AreChains(p, Pick(p, part, true), comps)
    requires c < |ChainsOf(p, part, comps)| && d < |ChainsOf(p, part, comps)| && c != d
    requires i in ChainsOf(p, part, comps)[c] && j in ChainsOf(p, part, comps)[d]
    ensures Unlinked(p, i, j)
  {
    hide CleanPhase, AreChains, Pick, ChainsOf, Unlinked;
    CleanInRange(p, part);
    ChainMember(p, part, comps, c, i);
    ChainMember(p, part, comps, d, j);
    ApartMembers(p, part, comps, c, d, i, j);
    var shaped := |Pick(p, part, false)|;
    if c < shaped || d < shaped {
      ShapedUnlinked(p, i, j);
    } else {
      MapsUnlinked(p, part, comps, c - shaped, d - shaped, i, j);
    }
  }

  lemma CleanInRange(p: Program, part: seq<nat>)
    requires CleanPhase(p, part)
    ensures InRange(p, part) && AllSchedulable(p, part) && StrictlyAscending(part)
  {
  }

  lemma ShapedUnlinked(p: Program, i: nat, j: nat)
    requires i < |p.instrs| && j < |p.instrs| && i != j && !(IsMap(p.tg, p.instrs[i]) && IsMap(p.tg, p.instrs[j]))
    ensures Unlinked(p, i, j)
  {
    hide IsMap, Reads;
  }

  lemma ApartMembers(p: Program, part: seq<nat>, comps: seq<seq<nat>>, c: nat, d: nat, i: nat, j: nat)
    requires CleanPhase(p, part) && AreChains(p, Pick(p, part, true), comps)
    requires c < |ChainsOf(p, part, comps)| && d < |ChainsOf(p, part, comps)| && c != d
    requires i in ChainsOf(p, part, comps)[c] && j in ChainsOf(p, part, comps)[d]
    ensures i != j
  {
    if i == j {
      OneChainEach(p, part, comps, c, d, i);
    }
  }

  /** A member of a chain is an instruction of the phase, and not elementwise in the chains of
      shaped operations. */
  lemma ChainMember(p: Program, part: seq<nat>, comps: seq<seq<nat>>, c: nat, i: nat)
    requires CleanPhase(p, part) && AreChains(p, Pick(p, part, true), comps)
    requires c < |ChainsOf(p, part, comps)| && i in ChainsOf(p, part, comps)[c]
    ensures i < |p.instrs| && (c < |Pick(p, part, false)| ==> !IsMap(p.tg, p.instrs[i]))
    ensures c >= |Pick(p, part, false)| ==> i in comps[c - |Pick(p, part, false)|]
  {
    hide Pick, IsMap, StrictlyAscending, AllSchedulable, Linked, Respects, Boundary;
    ChainsPermute(p, part, comps);
    ChainsDisjoint(part, ChainsOf(p, part, comps), c, c, i);
  }

  lemma OneChainEach(p: Program, part: seq<nat>, comps: seq<seq<nat>>, c: nat, d: nat, i: nat)
    requires CleanPhase(p, part) && AreChains(p, Pick(p, part, true), comps)
    requires c < |ChainsOf(p, part, comps)| && d < |ChainsOf(p, part, comps)|
    requires i in ChainsOf(p, part, comps)[c] && i in ChainsOf(p, part, comps)[d]
    ensures c == d
  {
    hide AreChains;
    ChainsPermute(p, part, comps);
    ChainsDisjoint(part, ChainsOf(p, part, comps), c, d, i);
  }

  /** The chains that the scheduler forms are good. */
  lemma ChainsAreGood(p: Program, part: seq<nat>, comps: seq<seq<nat>>)
    requires CleanPhase(p, part) && AreChains(p, Pick(p, part, true), comps)
    ensures GoodChains(p, part, Singles(Pick(p, part, false)) + comps)
  {
    var shaped := Pick(p, part, false);
    var chains := Singles(shaped) + comps;
    ChainsPermute(p, part, comps);
    forall c | 0 <= c < |chains|
      ensures GoodChain(p, chains[c])
    {
      EachChainGood(p, part, comps, c);
    }
    forall c, d, i, j | 0 <= c < |chains| && 0 <= d < |chains| && c != d && i in chains[c] && j in chains[d]
      ensures Unlinked(p, i, j)
    {
      PairUnlinked(p, part, comps, c, d, i, j);
    }
  }

  // ----- units ------------------------------------------------------------------------

  /** One unit: a task for each operation of its chain, the chain's common tile count, and the
      cost of all its tiles. */
  predicate UnitFor(p: Program, owner: seq<nat>, chain: seq<nat>, u: Unit)
    requires GoodChain(p, chain)
  {
    && |u.tids| == |chain|
    && (forall x | 0 <= x < |chain| :: u.tids[x] < |owner| && owner[u.tids[x]] == chain[x])
    && u.tiles == Tiles(p.tg, p.instrs[chain[0]])
    && u.cost == |chain| as real * u.tiles as real * p.tg.unitCost(TaskOf(p.tg, p.instrs[chain[0]]).tileOp)
  }

  ghost predicate UnitsForChains(p: Program, owner: seq<nat>, chains: seq<seq<nat>>, units: seq<Unit>) {
    && |units| == |chains|
    && forall c | 0 <= c < |chains| :: GoodChain(p, chains[c]) && UnitFor(p, owner, chains[c], units[c])
  }

  /** The units that the scheduler builds for one phase. */
  ghost predicate UnitsFor(p: Program, owner: seq<nat>, part: seq<nat>, units: seq<Unit>)
    requires CleanPhase(p, part)
  {
    exists comps :: AreChains(p, Pick(p, part, true), comps)
      && UnitsForChains(p, owner, Singles(Pick(p, part, false)) + comps, units)
  }

  lemma UnitsTidsOk(p: Program, owner: seq<nat>, chains: seq<seq<nat>>, units: seq<Unit>)
    requires UnitsForChains(p, owner, chains, units)
    ensures UnitsOk(owner, units)
  {
    forall x | 0 <= x < |units|
      ensures TidsOk(owner, units[x].tids)
    {
      assert UnitFor(p, owner, chains[x], units[x]);
    }
  }

  lemma {:induction false} ChainStepsShape(owner: seq<nat>, tids: seq<nat>, chain: seq<nat>, lo: nat, hi: nat)
    requires lo <= hi && |tids| == |chain| && TidsOk(owner, tids) && StrictlyAscending(chain)
    requires forall x | 0 <= x < |chain| :: owner[tids[x]] == chain[x]
    ensures var s := ChainSteps(owner, tids, lo, hi);
            && (forall y | 0 <= y < |s| :: s[y].instr in chain && lo <= s[y].tile < hi)
            && Ascending(s)
  {
    if tids == [] {
    } else {
      ChainStepsShape(owner, tids[1..], chain[1..], lo, hi);
      var rest := ChainSteps(owner, tids[1..], lo, hi);
      forall y | 0 <= y < |rest|
        ensures rest[y].instr > chain[0]
      {
        var z :| 0 <= z < |chain[1..]| && chain[1..][z] == rest[y].instr;
        assert chain[z + 1] > chain[0];
      }
    }
  }

  // ----- the reordering is harmless -----------------------------------------------------

  /** An inverted pair that does not commute. */
  ghost function Harmful(p: Program, dev: Device): (Step, Step) -> bool {
    (a: Step, b: Step) => Less(b, a) && !Commute(Act(p, dev), a, b)
  }

  lemma SeparateStepsCommute(p: Program, dev: Device, part: seq<nat>, a: Step, b: Step)
    requires PhaseOk(p, dev, part) && TileOf(p, part, a) && TileOf(p, part, b)
    requires var x, y := p.instrs[a.instr], p.instrs[b.instr];
             if a.instr == b.instr then a.tile != b.tile
             else !(IsMap(p.tg, x) && IsMap(p.tg, y) && a.tile == b.tile && Related(p, x, y))
    ensures Commute(Act(p, dev), a, b)
  {
    assert InstrOk(p, dev, p.instrs[a.instr]) && InstrOk(p, dev, p.instrs[b.instr]);
    assert TileOk(p, dev, p.instrs[a.instr], a.tile) && TileOk(p, dev, p.instrs[b.instr], b.tile);
    if a.instr == b.instr {
      SelfSeparate(p, dev, part, a.instr, a.tile, b.tile);
    } else if a.instr < b.instr {
      PairSeparate(p, dev, part, a, b);
    } else {
      PairSeparate(p, dev, part, b, a);
    }
    SeparateCommute(p, dev, a, b);
  }

  /** Where the steps of a chunk come from. */
  lemma ChunkShape(p: Program, owner: seq<nat>, part: seq<nat>, chains: seq<seq<nat>>, units: seq<Unit>, c: Chunk)
    requires CleanPhase(p, part) && GoodChains(p, part, chains) && UnitsForChains(p, owner, chains, units)
    requires ComesFrom(units, c)
    ensures ChunkOk(owner, c) && Ascending(ChunkSteps(owner, c))
    ensures forall y | 0 <= y < |ChunkSteps(owner, c)| ::
              var s := ChunkSteps(owner, c)[y];
              s.instr in chains[c.uid] && c.lo <= s.tile < c.hi && TileOf(p, part, s)
  {
    var chain := chains[c.uid];
    UnitsTidsOk(p, owner, chains, units);
    assert GoodChain(p, chain) && UnitFor(p, owner, chain, units[c.uid]);
    ChainStepsShape(owner, c.tids, chain, c.lo, c.hi);
    forall y | 0 <= y < |ChunkSteps(owner, c)|
      ensures TileOf(p, part, ChunkSteps(owner, c)[y])
    {
      var s := ChunkSteps(owner, c)[y];
      ChainsDisjoint(part, chains, c.uid, c.uid, s.instr);
      var x :| 0 <= x < |chain| && chain[x] == s.instr;
      assert Tiles(p.tg, p.instrs[chain[x]]) == Tiles(p.tg, p.instrs[chain[0]]);
    }
  }

  lemma ChunksApart(p: Program, dev: Device, owner: seq<nat>, part: seq<nat>, chains: seq<seq<nat>>, units: seq<Unit>,
                    c: Chunk, d: Chunk)
    requires PhaseOk(p, dev, part) && GoodChains(p, part, chains) && UnitsForChains(p, owner, chains, units)
    requires ComesFrom(units, c) && ComesFrom(units, d) && Apart(c, d)
    requires ChunkOk(owner, c) && ChunkOk(owner, d)
    ensures CleanPair(ChunkSteps(owner, c), ChunkSteps(owner, d), Harmful(p, dev))
  {
    ChunkShape(p, owner, part, chains, units, c);
    ChunkShape(p, owner, part, chains, units, d);
    forall x, y | 0 <= x < |ChunkSteps(owner, c)| && 0 <= y < |ChunkSteps(owner, d)|
      ensures !Harmful(p, dev)(ChunkSteps(owner, c)[x], ChunkSteps(owner, d)[y])
    {
      var a, b := ChunkSteps(owner, c)[x], ChunkSteps(owner, d)[y];
      if c.uid != d.uid {
        assert Unlinked(p, a.instr, b.instr) && Unlinked(p, b.instr, a.instr);
      }
      SeparateStepsCommute(p, dev, part, a, b);
    }
  }

  lemma AscendingHarmless(p: Program, dev: Device, s: seq<Step>)
    requires Ascending(s)
    ensures Clean(s, Harmful(p, dev))
  {
  }

  lemma PackingHarmless(p: Program, dev: Device, owner: seq<nat>, part: seq<nat>, chains: seq<seq<nat>>,
                        units: seq<Unit>, n: nat)
    requires PhaseOk(p, dev, part) && GoodChains(p, part, chains) && UnitsForChains(p, owner, chains, units)
    ensures UnitsOk(owner, units) && ChunksOk(owner, SortedChunks(units, n))
    ensures Avoided(owner, SortedChunks(units, n), Harmful(p, dev))
  {
    UnitsTidsOk(p, owner, chains, units);
    PackedChunks(owner, units, n);
    var chunks := SortedChunks(units, n);
    forall q | 0 <= q < |chunks|
      ensures Clean(ChunkSteps(owner, chunks[q]), Harmful(p, dev))
    {
      ChunkShape(p, owner, part, chains, units, chunks[q]);
      AscendingHarmless(p, dev, ChunkSteps(owner, chunks[q]));
    }
    forall q, r | 0 <= q < |chunks| && 0 <= r < |chunks| && q != r
      ensures CleanPair(ChunkSteps(owner, chunks[q]), ChunkSteps(owner, chunks[r]), Harmful(p, dev))
    {
      assert Apart(chunks[q], chunks[r]) by {
        assert if q < r then Apart(chunks[q], chunks[r]) else Apart(chunks[r], chunks[q]);
      }
      ChunksApart(p, dev, owner, part, chains, units, chunks[q], chunks[r]);
    }
  }

  // ----- the steps of a phase in program order --------------------------------------------

  function PhaseSteps(p: Program, part: seq<nat>): seq<Step>
    requires AllSchedulable(p, part)
  {
    if part == [] then []
    else TileSteps(part[0], 0, Tiles(p.tg, p.instrs[part[0]])) + PhaseSteps(p, part[1..])
  }

  lemma {:induction false} PhaseStepsAscending(p: Program, part: seq<nat>)
    requires AllSchedulable(p, part) && StrictlyAscending(part)
    ensures Ascending(PhaseSteps(p, part))
    ensures forall y | 0 <= y < |PhaseSteps(p, part)| :: PhaseSteps(p, part)[y].instr in part
  {
    if part == [] {
    } else {
      PhaseStepsAscending(p, part[1..]);
      var rest := PhaseSteps(p, part[1..]);
      forall y | 0 <= y < |rest|
        ensures rest[y].instr > part[0]
      {
        var z :| 0 <= z < |part[1..]| && part[1..][z] == rest[y].instr;
        assert part[z + 1] > part[0];
      }
    }
  }

  lemma {:induction false} TileStepsCount(i: nat, lo: nat, hi: nat, e: Step)
    requires lo <= hi
    ensures multiset(TileSteps(i, lo, hi))[e] == if e.instr == i && lo <= e.tile < hi then 1 else 0
    decreases hi - lo
  {
    if lo >= hi {
    } else {
      TileStepsCount(i, lo + 1, hi, e);
    }
  }

  /** How often a step occurs: once per occurrence of its instruction, if it is a tile of it. */
  lemma {:induction false} PhaseStepsCount(p: Program, part: seq<nat>, e: Step)
    requires AllSchedulable(p, part)
    ensures multiset(PhaseSteps(p, part))[e]
         == if e.instr in part && e.tile < Tiles(p.tg, p.instrs[e.instr]) then multiset(part)[e.instr] else 0
  {
    if part == [] {
    } else {
      assert part == [part[0]] + part[1..];
      TileStepsCount(part[0], 0, Tiles(p.tg, p.instrs[part[0]]), e);
      PhaseStepsCount(p, part[1..], e);
    }
  }

  lemma {:induction false} ChainBag(p: Program, owner: seq<nat>, tids: seq<nat>, chain: seq<nat>, tiles: nat)
    requires |tids| == |chain| && TidsOk(owner, tids) && AllSchedulable(p, chain)
    requires forall x | 0 <= x < |chain| :: owner[tids[x]] == chain[x] && Tiles(p.tg, p.instrs[chain[x]]) == tiles
    ensures ChainSteps(owner, tids, 0, tiles) == PhaseSteps(p, chain)
  {
    if tids == [] {
    } else {
      ChainBag(p, owner, tids[1..], chain[1..], tiles);
    }
  }

  lemma {:induction false} PhaseStepsConcat(p: Program, a: seq<nat>, b: seq<nat>)
    requires AllSchedulable(p, a) && AllSchedulable(p, b)
    ensures PhaseSteps(p, a + b) == PhaseSteps(p, a) + PhaseSteps(p, b)
  {
    if a == [] {
      assert a + b == b;
    } else {
      assert (a + b)[1..] == a[1..] + b;
      PhaseStepsConcat(p, a[1..], b);
    }
  }

  lemma {:induction false} UnitBagIs(p: Program, owner: seq<nat>, chains: seq<seq<nat>>, units: seq<Unit>, from: nat)
    requires UnitsForChains(p, owner, chains, units) && from <= |units| && UnitsOk(owner, units)
    ensures AllSchedulable(p, Flatten(chains[from..]))
    ensures UnitBag(owner, units, from) == multiset(PhaseSteps(p, Flatten(chains[from..])))
    decreases |units| - from
  {
    if from >= |units| {
    } else {
      UnitBagIs(p, owner, chains, units, from + 1);
      assert GoodChain(p, chains[from]) && UnitFor(p, owner, chains[from], units[from]);
      ChainBag(p, owner, units[from].tids, chains[from], units[from].tiles);
      assert chains[from..][1..] == chains[from + 1..];
      PhaseStepsConcat(p, chains[from], Flatten(chains[from + 1..]));
    }
  }

  lemma PermutedSteps(p: Program, a: seq<nat>, b: seq<nat>)
    requires AllSchedulable(p, a) && AllSchedulable(p, b) && multiset(a) == multiset(b)
    ensures multiset(PhaseSteps(p, a)) == multiset(PhaseSteps(p, b))
  {
    forall e
      ensures multiset(PhaseSteps(p, a))[e] == multiset(PhaseSteps(p, b))[e]
    {
      PhaseStepsCount(p, a, e);
      PhaseStepsCount(p, b, e);
      assert e.instr in a <==> e.instr in multiset(a);
      assert e.instr in b <==> e.instr in multiset(b);
    }
  }

  /** The phase theorem: for every cost table, lane count and interleaving, the packed phase
      has exactly the effect of its tiles in program order. */
  lemma PhaseTheorem(p: Program, dev: Device, owner: seq<nat>, part: seq<nat>, units: seq<Unit>, n: pos,
                     sched: seq<nat>, m: Mem)
    requires PhaseOk(p, dev, part) && UnitsFor(p, owner, part, units)
    requires PackedOk(owner, units, n) && ValidSched(PackedSteps(owner, units, n), sched)
    ensures var w := Weave(PackedSteps(owner, units, n), sched);
            && multiset(w) == multiset(PhaseSteps(p, part))
            && Run(Act(p, dev), w, m) == Run(Act(p, dev), PhaseSteps(p, part), m)
  {
    var comps :| AreChains(p, Pick(p, part, true), comps)
      && UnitsForChains(p, owner, Singles(Pick(p, part, false)) + comps, units);
    var chains := Singles(Pick(p, part, false)) + comps;
    ChainsAreGood(p, part, comps);
    PackingHarmless(p, dev, owner, part, chains, units, n);
    PackedWeave(owner, units, n, sched, Harmful(p, dev));
    var w := Weave(PackedSteps(owner, units, n), sched);
    UnitBagIs(p, owner, chains, units, 0);
    assert chains[0..] == chains;
    PermutedSteps(p, Flatten(chains), part);
    HarmlessRun(p, dev, w, m);
    SortAscending(w);
    PhaseStepsAscending(p, part);
    AscendingUnique(Sort(w), PhaseSteps(p, part));
  }

  lemma HarmlessRun(p: Program, dev: Device, w: seq<Step>, m: Mem)
    requires Clean(w, Harmful(p, dev))
    ensures Run(Act(p, dev), w, m) == Run(Act(p, dev), Sort(w), m)
  {
    forall x, y | 0 <= x < y < |w| && Less(w[y], w[x])
      ensures Commute(Act(p, dev), w[x], w[y])
    {
      assert !Harmful(p, dev)(w[x], w[y]);
    }
    RunSorted(Act(p, dev), w, m);
  }
}
