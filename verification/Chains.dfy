/** Fused elementwise chains: the connected components of a phase's elementwise operations
    under data dependence, found with union-find and path halving. */
module Chains {
  import opened Isa
  import opened PhaseCut

  predicate StrictlyAscending(s: seq<nat>) {
    forall x, y | 0 <= x < y < |s| :: s[x] < s[y]
  }

  /** The writer table: the last operation of the list that writes each buffer. */
  function WriterTable(p: Program, maps: seq<nat>): map<nat, nat>
    requires InRange(p, maps)
  {
    if maps == [] then map[]
    else
      var i := maps[|maps| - 1];
      WriterTable(p, maps[..|maps| - 1]) + map b | b in Writes(p.instrs[i]) :: i
  }

  /** `j` reads a buffer whose recorded writer is the other operation `w`. */
  ghost predicate Linked(p: Program, maps: seq<nat>, w: nat, j: nat)
    requires InRange(p, maps)
  {
    && j in maps && w != j
    && exists b :: b in Reads(p.tg, p.instrs[j]) && b in WriterTable(p, maps) && WriterTable(p, maps)[b] == w
  }

  ghost predicate LinkedVia(p: Program, writer: map<nat, nat>, w: nat, j: nat, todo: set<nat>)
    requires j < |p.instrs|
  {
    w != j && exists b :: b in Reads(p.tg, p.instrs[j]) - todo && b in writer && writer[b] == w
  }

  lemma {:induction false} WriterMember(p: Program, maps: seq<nat>, b: nat)
    requires InRange(p, maps) && b in WriterTable(p, maps)
    ensures WriterTable(p, maps)[b] in maps && b in Writes(p.instrs[WriterTable(p, maps)[b]])
  {
    var i := maps[|maps| - 1];
    if b !in Writes(p.instrs[i]) {
      WriterMember(p, maps[..|maps| - 1], b);
    }
  }

  /** When no two operations of the list write the same buffer, the table names them all. */
  lemma {:induction false} WriterUnique(p: Program, maps: seq<nat>, i: nat, b: nat)
    requires InRange(p, maps) && i in maps && b in Writes(p.instrs[i])
    requires forall x, y | 0 <= x < y < |maps| :: Writes(p.instrs[maps[x]]) !! Writes(p.instrs[maps[y]])
    ensures b in WriterTable(p, maps) && WriterTable(p, maps)[b] == i
  {
    var last := maps[|maps| - 1];
    var x :| 0 <= x < |maps| && maps[x] == i;
    if x >= |maps| - 1 {
    } else {
      assert Writes(p.instrs[maps[x]]) !! Writes(p.instrs[maps[|maps| - 1]]);
      assert maps[..|maps| - 1][x] == i;
      WriterUnique(p, maps[..|maps| - 1], i, b);
    }
  }

  /** The chains are the connected components: they partition the operations, keep program
      order inside, never separate linked operations, and are no coarser than linking forces
      (any labelling that links cannot tell apart is constant on every chain). */
  ghost predicate AreChains(p: Program, maps: seq<nat>, comps: seq<seq<nat>>)
    requires InRange(p, maps)
  {
    && multiset(Flatten(comps)) == multiset(maps)
    && (forall c | 0 <= c < |comps| :: comps[c] != [] && StrictlyAscending(comps[c]))
    && (forall c, d, i, j | 0 <= c < |comps| && 0 <= d < |comps| && i in comps[c] && j in comps[d]
      && Linked(p, maps, i, j) :: c == d)
    && (forall tag: nat -> nat :: Respects(p, maps, tag) ==>
          forall c, i, j | 0 <= c < |comps| && i in comps[c] && j in comps[c] :: tag(i) == tag(j))
  }

  ghost predicate Respects(p: Program, maps: seq<nat>, tag: nat -> nat)
    requires InRange(p, maps)
  {
    forall w, j | Linked(p, maps, w, j) :: tag(w) == tag(j)
  }

  lemma ChainsKeepTags(p: Program, maps: seq<nat>, comps: seq<seq<nat>>, tag: nat -> nat, c: nat, i: nat, j: nat)
    requires InRange(p, maps) && AreChains(p, maps, comps) && Respects(p, maps, tag)
    requires c < |comps| && i in comps[c] && j in comps[c]
    ensures tag(i) == tag(j)
  {
  }

  // ----- union-find -------------------------------------------------------------

  /** `cls` names the root above every node; `rank` rises along parents, so there are no
      cycles; `top` bounds it. */
  ghost predicate Forest(parent: map<nat, nat>, cls: map<nat, nat>, rank: map<nat, nat>, top: nat) {
    && parent.Keys == cls.Keys == rank.Keys
    && (forall x {:trigger Sound(parent, cls, rank, top, x)} | x in parent :: Sound(parent, cls, rank, top, x))
  }

  ghost predicate Sound(parent: map<nat, nat>, cls: map<nat, nat>, rank: map<nat, nat>, top: nat, x: nat)
    requires parent.Keys == cls.Keys == rank.Keys && x in parent
  {
    && parent[x] in parent && cls[parent[x]] == cls[x]
    && (parent[x] == x <==> cls[x] == x)
    && rank[x] <= top && (parent[x] != x ==> rank[x] < rank[parent[x]])
  }

  lemma RedirectKeepsForest(parent: map<nat, nat>, x: nat, y: nat, cls: map<nat, nat>, rank: map<nat, nat>, top: nat)
    requires Forest(parent, cls, rank, top) && x in parent && y in parent
    requires parent[x] != x && cls[y] == cls[x] && rank[x] < rank[y]
    ensures Forest(parent[x := y], cls, rank, top)
  {
    var now := parent[x := y];
    assert now.Keys == parent.Keys;
    forall z | z in now
      ensures Sound(now, cls, rank, top, z)
    {
      assert Sound(parent, cls, rank, top, z);
    }
  }

  method Find(parent: map<nat, nat>, x0: nat, ghost cls: map<nat, nat>, ghost rank: map<nat, nat>, ghost top: nat)
    returns (halved: map<nat, nat>, root: nat)
    requires Forest(parent, cls, rank, top) && x0 in parent
    ensures Forest(halved, cls, rank, top)
    ensures root == cls[x0] && root in halved && halved[root] == root && cls[root] == root
  {
    var x := x0;
    halved := parent;
    while halved[x] != x
      invariant x in halved && Forest(halved, cls, rank, top)
      invariant cls[x] == cls[x0]
      decreases top - rank[x]
    {
      var up := halved[x];
      assert Sound(halved, cls, rank, top, x) && Sound(halved, cls, rank, top, up);
      RedirectKeepsForest(halved, x, halved[up], cls, rank, top);
      halved := halved[x := halved[up]];
      x := halved[x];
    }
    assert Sound(halved, cls, rank, top, x);
    root := x;
  }

  ghost function Merge(cls: map<nat, nat>, w: nat, j: nat): map<nat, nat> {
    map x | x in cls :: if cls[x] == w then j else cls[x]
  }

  /** Two nodes share a class only if every labelling constant on `done` links says so. */
  ghost predicate Finest(cls: map<nat, nat>, done: set<(nat, nat)>) {
    forall tag: nat -> nat :: Constant(done, tag) ==>
      forall x, y | x in cls && y in cls && cls[x] == cls[y] :: tag(x) == tag(y)
  }

  ghost predicate Constant(done: set<(nat, nat)>, tag: nat -> nat) {
    forall e | e in done :: tag(e.0) == tag(e.1)
  }

  ghost predicate Joins(cls: map<nat, nat>, done: set<(nat, nat)>) {
    forall e | e in done :: e.0 in cls && e.1 in cls && cls[e.0] == cls[e.1]
  }

  lemma MergeFinest(cls: map<nat, nat>, done: set<(nat, nat)>, w: nat, j: nat)
    requires w in cls && j in cls && Finest(cls, done)
    ensures Finest(Merge(cls, cls[w], cls[j]), done + {(w, j)})
    ensures Joins(cls, done) ==> Joins(Merge(cls, cls[w], cls[j]), done + {(w, j)})
  {
    var merged := Merge(cls, cls[w], cls[j]);
    forall tag: nat -> nat, x, y | Constant(done + {(w, j)}, tag) && x in merged && y in merged
        && merged[x] == merged[y]
      ensures tag(x) == tag(y)
    {
      assert (w, j) in done + {(w, j)};
      assert Constant(done, tag);
    }
  }

  ghost function Lift(rank: map<nat, nat>, rw: nat, rj: nat): map<nat, nat>
    requires rw in rank && rj in rank
  {
    if rw == rj then rank else rank[rj := Max(rank[rj], rank[rw] + 1)]
  }

  lemma AttachKeepsForest(parent: map<nat, nat>, rw: nat, rj: nat, cls: map<nat, nat>, rank: map<nat, nat>, top: nat)
    requires Forest(parent, cls, rank, top) && rw in parent && rj in parent
    requires parent[rw] == rw && parent[rj] == rj
    ensures Forest(parent[rw := rj], Merge(cls, rw, rj), Lift(rank, rw, rj), top + 1)
  {
    var now, cls', rank' := parent[rw := rj], Merge(cls, rw, rj), Lift(rank, rw, rj);
    assert now.Keys == parent.Keys == cls'.Keys && rank'.Keys == parent.Keys;
    assert Sound(parent, cls, rank, top, rw) && Sound(parent, cls, rank, top, rj);
    forall z | z in now
      ensures Sound(now, cls', rank', top + 1, z)
    {
      assert Sound(parent, cls, rank, top, z);
      assert Sound(parent, cls, rank, top, parent[z]);
    }
  }

  /** parent[find(w)] = find(j). */
  method Union(parent: map<nat, nat>, w: nat, j: nat, ghost cls: map<nat, nat>, ghost rank: map<nat, nat>,
               ghost top: nat, ghost done: set<(nat, nat)>)
    returns (joined: map<nat, nat>, ghost cls': map<nat, nat>, ghost rank': map<nat, nat>)
    requires Forest(parent, cls, rank, top) && w in parent && j in parent
    requires Finest(cls, done) && Joins(cls, done)
    ensures Forest(joined, cls', rank', top + 1) && joined.Keys == parent.Keys
    ensures Finest(cls', done + {(w, j)}) && Joins(cls', done + {(w, j)})
  {
    var halved, rj, rw;
    halved, rj := Find(parent, j, cls, rank, top);
    halved, rw := Find(halved, w, cls, rank, top);
    assert halved[rj] == rj by {
      assert Sound(halved, cls, rank, top, rj);
    }
    AttachKeepsForest(halved, rw, rj, cls, rank, top);
    MergeFinest(cls, done, w, j);
    joined, cls', rank' := halved[rw := rj], Merge(cls, rw, rj), Lift(rank, rw, rj);
    assert joined.Keys == halved.Keys;
  }

  /** Unites `j` with the recorded writer of each buffer it reads. */
  method UniteReads(p: Program, maps: seq<nat>, j: nat, writer: map<nat, nat>, parent: map<nat, nat>,
                    ghost cls: map<nat, nat>, ghost rank: map<nat, nat>, ghost top: nat, ghost done: set<(nat, nat)>)
    returns (joined: map<nat, nat>, ghost cls': map<nat, nat>, ghost rank': map<nat, nat>, ghost top': nat,
        ghost done': set<(nat, nat)>)
    requires InRange(p, maps) && writer == WriterTable(p, maps) && j in maps
    requires Forest(parent, cls, rank, top) && forall i | i in maps :: i in parent
    requires Finest(cls, done) && Joins(cls, done)
    ensures Forest(joined, cls', rank', top') && joined.Keys == parent.Keys
    ensures Finest(cls', done') && Joins(cls', done')
    ensures forall e :: e in done' <==> e in done || (e.1 == j && Linked(p, maps, e.0, j))
  {
    hide Forest, Finest, Joins, LinkedVia, DoneFor;
    joined, cls', rank', top', done' := parent, cls, rank, top, done;
    var todo := Reads(p.tg, p.instrs[j]);
    NoneDone(p, writer, done, j);
    while todo != {}
      invariant todo <= Reads(p.tg, p.instrs[j])
      invariant Forest(joined, cls', rank', top') && joined.Keys == parent.Keys
      invariant Finest(cls', done') && Joins(cls', done')
      invariant DoneFor(p, writer, done, done', j, todo)
      decreases |todo|
    {
      var b :| b in todo;
      NextDone(p, writer, done, done', j, todo, b);
      if b in writer && writer[b] != j {
        WriterMember(p, maps, b);
        joined, cls', rank' := Union(joined, writer[b], j, cls', rank', top', done');
        top', done' := top' + 1, done' + {(writer[b], j)};
      }
      todo := todo - {b};
    }
    AllDone(p, maps, done, done', j);
  }

  /** What has been united for `j` when the buffers `todo` are still ahead. */
  ghost predicate DoneFor(p: Program, writer: map<nat, nat>, before: set<(nat, nat)>, done: set<(nat, nat)>, j: nat,
                          todo: set<nat>)
    requires j < |p.instrs|
  {
    forall e :: e in done <==> e in before || (e.1 == j && LinkedVia(p, writer, e.0, j, todo))
  }

  lemma NoneDone(p: Program, writer: map<nat, nat>, done: set<(nat, nat)>, j: nat)
    requires j < |p.instrs|
    ensures DoneFor(p, writer, done, done, j, Reads(p.tg, p.instrs[j]))
  {
  }

  lemma NextDone(p: Program, writer: map<nat, nat>, before: set<(nat, nat)>, done: set<(nat, nat)>, j: nat,
                 todo: set<nat>, b: nat)
    requires j < |p.instrs| && DoneFor(p, writer, before, done, j, todo)
    requires b in todo && todo <= Reads(p.tg, p.instrs[j])
    ensures DoneFor(p, writer, before, if b in writer && writer[b] != j then done + {(writer[b], j)} else done, j,
                    todo - {b})
  {
    var rest := Reads(p.tg, p.instrs[j]) - (todo - {b});
    assert rest == Reads(p.tg, p.instrs[j]) - todo + {b};
    forall w: nat
      ensures LinkedVia(p, writer, w, j, todo - {b}) <==>
          LinkedVia(p, writer, w, j, todo) || (w != j && b in writer && writer[b] == w)
    {
    }
  }

  lemma AllDone(p: Program, maps: seq<nat>, before: set<(nat, nat)>, done: set<(nat, nat)>, j: nat)
    requires InRange(p, maps) && j in maps && DoneFor(p, WriterTable(p, maps), before, done, j, {})
    ensures forall e :: e in done <==> e in before || (e.1 == j && Linked(p, maps, e.0, j))
  {
  }

  method BuildWriterTable(p: Program, maps: seq<nat>) returns (writer: map<nat, nat>)
    requires InRange(p, maps)
    ensures writer == WriterTable(p, maps)
  {
    writer := map[];
    var k := 0;
    while k < |maps|
      invariant 0 <= k <= |maps|
      invariant writer == WriterTable(p, maps[..k])
    {
      assert maps[..k + 1][..k] == maps[..k];
      writer := writer + map b | b in Writes(p.instrs[maps[k]]) :: maps[k];
      k := k + 1;
    }
    assert maps[..k] == maps;
  }

  lemma Singletons(keys: set<nat>)
    ensures var id, zero := map i | i in keys :: i, map i | i in keys :: 0;
            Forest(id, id, zero, 0) && Finest(id, {}) && Joins(id, {})
  {
    var id, zero := map i | i in keys :: i, map i | i in keys :: 0;
    assert id.Keys == zero.Keys;
  }

  /** Runs every union of the phase: one per read of a recorded writer. */
  method UniteAll(p: Program, maps: seq<nat>, writer: map<nat, nat>)
    returns (parent: map<nat, nat>, ghost cls: map<nat, nat>, ghost rank: map<nat, nat>, ghost top: nat,
        ghost done: set<(nat, nat)>)
    requires InRange(p, maps) && writer == WriterTable(p, maps)
    ensures Forest(parent, cls, rank, top) && forall i | i in maps :: i in parent
    ensures Finest(cls, done) && Joins(cls, done)
    ensures forall e :: e in done <==> e.1 in maps && Linked(p, maps, e.0, e.1)
  {
    hide InRange, WriterTable, Forest, Finest, Joins, Linked;
    var keys := set i | i in maps;
    parent := map i | i in keys :: i;
    cls, rank, top, done := parent, map i | i in keys :: 0, 0, {};
    Singletons(keys);
    var k := 0;
    while k < |maps|
      invariant 0 <= k <= |maps|
      invariant Forest(parent, cls, rank, top) && parent.Keys == keys
      invariant Finest(cls, done) && Joins(cls, done)
      invariant forall e :: e in done <==> e.1 in maps[..k] && Linked(p, maps, e.0, e.1)
    {
      assert maps[..k + 1] == maps[..k] + [maps[k]];
      parent, cls, rank, top, done := UniteReads(p, maps, maps[k], writer, parent, cls, rank, top, done);
      k := k + 1;
    }
    assert maps[..k] == maps;
  }

  /** The fused chains of one phase, each in program order. */
  method MapChains(p: Program, maps: seq<nat>) returns (comps: seq<seq<nat>>)
    requires InRange(p, maps) && StrictlyAscending(maps)
    ensures AreChains(p, maps, comps)
  {
    var writer := BuildWriterTable(p, maps);
    var parent;
    ghost var cls, rank, top, done, roots;
    parent, cls, rank, top, done := UniteAll(p, maps, writer);
    comps, roots := Collect(maps, parent, cls, rank, top);
    CollectedAreChains(p, maps, comps, roots, cls, done);
  }

  /** `comps[c]` holds exactly the members of `seen` whose root is `roots[c]`. */
  ghost predicate Grouped(seen: seq<nat>, comps: seq<seq<nat>>, roots: seq<nat>, cls: map<nat, nat>) {
    && |roots| == |comps|
    && multiset(Flatten(comps)) == multiset(seen)
    && (forall c | 0 <= c < |comps| :: comps[c] != [] && StrictlyAscending(comps[c]))
    && (forall c, x | 0 <= c < |comps| && 0 <= x < |comps[c]| ::
          comps[c][x] in seen && comps[c][x] in cls && cls[comps[c][x]] == roots[c])
    && (forall c, d | 0 <= c < d < |roots| :: roots[c] != roots[d])
  }

  lemma {:induction false} FlattenUpdate(comps: seq<seq<nat>>, c: nat, i: nat)
    requires c < |comps|
    ensures multiset(Flatten(comps[c := comps[c] + [i]])) == multiset(Flatten(comps)) + multiset{i}
  {
    var now := comps[c := comps[c] + [i]];
    if c == 0 {
      assert now[1..] == comps[1..];
    } else {
      assert now[1..] == comps[1..][c - 1 := comps[c] + [i]];
      FlattenUpdate(comps[1..], c - 1, i);
    }
  }

  lemma GroupExtend(seen: seq<nat>, comps: seq<seq<nat>>, roots: seq<nat>, cls: map<nat, nat>, c: nat, i: nat)
    requires Grouped(seen, comps, roots, cls)
    requires c < |comps| && i in cls && cls[i] == roots[c] && forall x | x in seen :: x < i
    ensures Grouped(seen + [i], comps[c := comps[c] + [i]], roots, cls)
  {
    hide Flatten;
    FlattenUpdate(comps, c, i);
    var grown := comps[c] + [i];
    forall x, y | 0 <= x < y < |grown|
      ensures grown[x] < grown[y]
    {
      if y == |comps[c]| {
        assert comps[c][x] in seen;
      }
    }
    assert multiset(seen + [i]) == multiset(seen) + multiset{i};
    var now := comps[c := grown];
    forall d, x | 0 <= d < |now| && 0 <= x < |now[d]|
      ensures var e := now[d][x]; e in seen + [i] && e in cls && cls[e] == roots[d]
    {
      if d != c || x < |comps[c]| {
        assert now[d][x] == comps[d][x];
      }
    }
  }

  lemma GroupNew(seen: seq<nat>, comps: seq<seq<nat>>, roots: seq<nat>, cls: map<nat, nat>, i: nat)
    requires Grouped(seen, comps, roots, cls)
    requires i in cls && cls[i] !in roots
    ensures Grouped(seen + [i], comps + [[i]], roots + [cls[i]], cls)
  {
    hide Flatten;
    FlattenAppend(comps, [i]);
    var more := comps + [[i]];
    assert multiset(Flatten(more)) == multiset(Flatten(comps)) + multiset([i]) == multiset(seen + [i]);
  }

  lemma SameKeys(parent0: map<nat, nat>, parent: map<nat, nat>, cls: map<nat, nat>, rank: map<nat, nat>, top: nat,
                 i: nat)
    requires Forest(parent0, cls, rank, top) && Forest(parent, cls, rank, top) && i in parent0
    ensures i in parent && i in cls
  {
  }

  /** Where each root's group is. */
  ghost predicate Slots(slot: map<nat, nat>, roots: seq<nat>) {
    && (forall r :: r in slot <==> r in roots)
    && forall r | r in slot :: slot[r] < |roots| && roots[slot[r]] == r
  }

  lemma SlotsNew(slot: map<nat, nat>, roots: seq<nat>, root: nat)
    requires Slots(slot, roots) && root !in slot
    ensures Slots(slot[root := |roots|], roots + [root])
  {
  }

  lemma SlotOf(slot: map<nat, nat>, roots: seq<nat>, root: nat)
    requires Slots(slot, roots)
    ensures root in slot <==> root in roots
    ensures root in slot ==> slot[root] < |roots| && roots[slot[root]] == root
  {
  }

  lemma GroupFacts(seen: seq<nat>, comps: seq<seq<nat>>, roots: seq<nat>, cls: map<nat, nat>)
    requires Grouped(seen, comps, roots, cls)
    ensures |roots| == |comps|
  {
  }

  /** Groups the operations by their root, in order of first appearance. */
  method Collect(maps: seq<nat>, parent0: map<nat, nat>, ghost cls: map<nat, nat>, ghost rank: map<nat, nat>,
                 ghost top: nat)
    returns (comps: seq<seq<nat>>, ghost roots: seq<nat>)
    requires StrictlyAscending(maps)
    requires Forest(parent0, cls, rank, top) && forall i | i in maps :: i in parent0
    ensures Grouped(maps, comps, roots, cls)
  {
    var parent := parent0;
    var slot: map<nat, nat> := map[];
    comps, roots := [], [];
    assert maps[..0] == [] && Grouped([], comps, roots, cls) && Slots(slot, roots);
    hide Forest, Grouped, Slots;
    var k := 0;
    while k < |maps|
      invariant 0 <= k <= |maps|
      invariant Forest(parent, cls, rank, top)
      invariant Grouped(maps[..k], comps, roots, cls)
      invariant Slots(slot, roots)
    {
      var i := maps[k];
      var root;
      assert i in parent.Keys && i in cls by {
        SameKeys(parent0, parent, cls, rank, top, i);
      }
      parent, root := Find(parent, i, cls, rank, top);
      assert maps[..k + 1] == maps[..k] + [i];
      SlotOf(slot, roots, root);
      GroupFacts(maps[..k], comps, roots, cls);
      if root in slot {
        GroupExtend(maps[..k], comps, roots, cls, slot[root], i);
        comps := comps[slot[root] := comps[slot[root]] + [i]];
      } else {
        GroupNew(maps[..k], comps, roots, cls, i);
        SlotsNew(slot, roots, root);
        slot := slot[root := |comps|];
        comps, roots := comps + [[i]], roots + [root];
      }
      k := k + 1;
    }
    assert maps[..k] == maps;
  }

  lemma CollectedAreChains(p: Program, maps: seq<nat>, comps: seq<seq<nat>>, roots: seq<nat>, cls: map<nat, nat>,
                           done: set<(nat, nat)>)
    requires InRange(p, maps) && Grouped(maps, comps, roots, cls)
    requires forall e :: e in done <==> e.1 in maps && Linked(p, maps, e.0, e.1)
    requires Finest(cls, done) && Joins(cls, done)
    ensures AreChains(p, maps, comps)
  {
    forall c, d, i, j | 0 <= c < |comps| && 0 <= d < |comps| && i in comps[c] && j in comps[d] && Linked(p, maps, i, j)
      ensures c == d
    {
      assert (i, j) in done;
    }
    forall tag: nat -> nat | Respects(p, maps, tag)
      ensures Constant(done, tag)
    {
    }
  }
}
