/** Cutting a run of compute instructions into barrier-separated phases. */
module PhaseCut {
  import opened Isa

  function Flatten<T>(parts: seq<seq<T>>): seq<T> {
    if parts == [] then [] else parts[0] + Flatten(parts[1..])
  }

  lemma {:induction false} FlattenAppend<T>(parts: seq<seq<T>>, last: seq<T>)
    ensures Flatten(parts + [last]) == Flatten(parts) + last
  {
    if parts == [] {
      assert parts + [last] == [last];
    } else {
      assert (parts + [last])[1..] == parts[1..] + [last];
      FlattenAppend(parts[1..], last);
    }
  }

  predicate Hits(p: Program, j: nat, cur: seq<nat>)
    requires InRange(p, cur) && j < |p.instrs|
  {
    exists x | 0 <= x < |cur| :: Boundary(p, j, cur[x])
  }

  /** The defining cut: test each instruction against the whole current phase. */
  function Greedy(p: Program, cur: seq<nat>, rest: seq<nat>): (parts: seq<seq<nat>>)
    requires InRange(p, cur) && InRange(p, rest)
    decreases |rest|
  {
    if rest == [] then if cur == [] then [] else [cur]
    else if cur != [] && Hits(p, rest[0], cur) then [cur] + Greedy(p, [rest[0]], rest[1..])
    else Greedy(p, cur + [rest[0]], rest[1..])
  }

  /** A legal phase: no instruction has a boundary dependence on an earlier one. */
  predicate Legal(p: Program, part: seq<nat>) {
    && InRange(p, part)
    && forall x, y | 0 <= x < y < |part| :: !Boundary(p, part[y], part[x])
  }

  predicate LegalParts(p: Program, parts: seq<seq<nat>>) {
    forall x | 0 <= x < |parts| :: parts[x] != [] && Legal(p, parts[x])
  }

  /** The phases are the input, in order, cut into legal pieces. */
  lemma {:induction false} GreedyCuts(p: Program, cur: seq<nat>, rest: seq<nat>)
    requires Legal(p, cur) && InRange(p, rest)
    ensures Flatten(Greedy(p, cur, rest)) == cur + rest
    ensures LegalParts(p, Greedy(p, cur, rest))
    decreases |rest|
  {
    if rest == [] {
      assert Flatten([cur]) == cur + Flatten<nat>([]);
    } else if cur != [] && Hits(p, rest[0], cur) {
      var tail := Greedy(p, [rest[0]], rest[1..]);
      GreedyCuts(p, [rest[0]], rest[1..]);
      assert ([cur] + tail)[1..] == tail;
      assert rest == [rest[0]] + rest[1..];
    } else {
      assert rest == [rest[0]] + rest[1..];
      GreedyCuts(p, cur + [rest[0]], rest[1..]);
      assert cur + [rest[0]] + rest[1..] == cur + rest;
    }
  }

  lemma FlattenInRange(p: Program, parts: seq<seq<nat>>)
    requires LegalParts(p, parts)
    ensures InRange(p, Flatten(parts))
  {
    hide Boundary;
  }

  lemma FirstPart(p: Program, parts: seq<seq<nat>>)
    requires LegalParts(p, parts) && parts != []
    ensures parts[0] != [] && Legal(p, parts[0]) && LegalParts(p, parts[1..])
  {
    hide Legal;
  }

  lemma HeadOut(parts: seq<seq<nat>>)
    requires parts != [] && parts[0] != []
    ensures parts[0] == [parts[0][0]] + parts[0][1..]
    ensures Flatten(parts) == [parts[0][0]] + (parts[0][1..] + Flatten(parts[1..]))
  {
    Behead(parts[0], Flatten(parts[1..]));
  }

  lemma Behead(s: seq<nat>, more: seq<nat>)
    requires s != []
    ensures s == [s[0]] + s[1..] && s + more == [s[0]] + (s[1..] + more)
  {
  }

  lemma HeadInRange(p: Program, j: nat, rest: seq<nat>)
    requires InRange(p, [j] + rest)
    ensures j < |p.instrs| && InRange(p, [j]) && InRange(p, rest)
  {
    assert ([j] + rest)[0] == j && ([j] + rest)[1..] == rest;
  }

  lemma GreedyStep(p: Program, cur: seq<nat>, j: nat, rest: seq<nat>)
    requires InRange(p, cur) && InRange(p, [j] + rest)
    ensures j < |p.instrs| && InRange(p, [j]) && InRange(p, rest) && InRange(p, cur + [j])
    ensures Greedy(p, cur, [j] + rest)
         == if cur != [] && Hits(p, j, cur) then [cur] + Greedy(p, [j], rest) else Greedy(p, cur + [j], rest)
  {
    hide Hits;
    HeadInRange(p, j, rest);
    assert ([j] + rest)[1..] == rest;
  }

  lemma GreedyStart(p: Program, j: nat, rest: seq<nat>)
    requires InRange(p, [j] + rest)
    ensures InRange(p, [j]) && InRange(p, rest) && Greedy(p, [], [j] + rest) == Greedy(p, [j], rest)
  {
    hide Hits;
    GreedyStep(p, [], j, rest);
    assert [] + [j] == [j];
  }

  /** Moving the next instruction into the current phase. */
  lemma Moved(p: Program, theirs: seq<nat>, q: seq<nat>, after: seq<nat>)
    requires Legal(p, theirs + q) && q != []
    ensures q + after == [q[0]] + (q[1..] + after)
    ensures Legal(p, theirs + [q[0]] + q[1..])
  {
    hide Legal;
    Behead(q, after);
    assert theirs + q == theirs + [q[0]] + q[1..];
  }

  lemma SuffixHarmless(p: Program, mine: seq<nat>, theirs: seq<nat>, q: seq<nat>)
    requires Legal(p, theirs + q) && q != []
    requires |mine| <= |theirs| && mine == theirs[|theirs| - |mine|..]
    ensures InRange(p, mine) && q[0] < |p.instrs| && !Hits(p, q[0], mine)
  {
    hide Boundary;
    assert (theirs + q)[|theirs|] == q[0];
    forall x | 0 <= x < |mine|
      ensures mine[x] < |p.instrs| && !Boundary(p, q[0], mine[x])
    {
      assert (theirs + q)[|theirs| - |mine| + x] == mine[x];
    }
  }

  lemma SuffixInRange(p: Program, mine: seq<nat>, theirs: seq<nat>, q: seq<nat>)
    requires Legal(p, theirs + q) && |mine| <= |theirs| && mine == theirs[|theirs| - |mine|..]
    ensures InRange(p, mine)
  {
    hide Boundary;
    forall x | 0 <= x < |mine|
      ensures mine[x] < |p.instrs|
    {
      assert (theirs + q)[|theirs| - |mine| + x] == mine[x];
    }
  }

  lemma RestInRange(p: Program, theirs: seq<nat>, q: seq<nat>, parts: seq<seq<nat>>)
    requires Legal(p, theirs + q) && LegalParts(p, parts)
    ensures InRange(p, q + Flatten(parts))
  {
    hide Boundary;
    FlattenInRange(p, parts);
    forall x | 0 <= x < |q|
      ensures q[x] < |p.instrs|
    {
      assert (theirs + q)[|theirs| + x] == q[x];
    }
  }

  /** No in-order partition into legal phases has fewer phases. */
  lemma GreedyFewest(p: Program, indices: seq<nat>, other: seq<seq<nat>>)
    requires InRange(p, indices)
    requires LegalParts(p, other) && Flatten(other) == indices
    ensures |Greedy(p, [], indices)| <= |other|
  {
    hide Legal, LegalParts, Hits, InRange;
    if other != [] {
      FirstPart(p, other);
      HeadOut(other);
      var j, q, parts := other[0][0], other[0][1..], other[1..];
      GreedyStart(p, j, q + Flatten(parts));
      StaysAhead(p, [j], [j], q, parts);
    }
  }

  /** While the other partition is still inside its current phase `theirs + q`, the greedy
      one, whose current phase started no earlier, needs no more phases for the rest. */
  lemma {:induction false} StaysAhead(p: Program, mine: seq<nat>, theirs: seq<nat>, q: seq<nat>, parts: seq<seq<nat>>)
    requires LegalParts(p, parts) && Legal(p, theirs + q)
    requires 0 < |mine| <= |theirs| && mine == theirs[|theirs| - |mine|..]
    ensures InRange(p, mine) && InRange(p, q + Flatten(parts))
    ensures |Greedy(p, mine, q + Flatten(parts))| <= 1 + |parts|
    decreases |parts|, |q|, 0
  {
    hide Legal, LegalParts, Hits, InRange;
    SuffixInRange(p, mine, theirs, q);
    RestInRange(p, theirs, q, parts);
    if q != [] {
      Moved(p, theirs, q, Flatten(parts));
      SuffixHarmless(p, mine, theirs, q);
      GreedyStep(p, mine, q[0], q[1..] + Flatten(parts));
      StaysAhead(p, mine + [q[0]], theirs + [q[0]], q[1..], parts);
    } else if parts != [] {
      assert q + Flatten(parts) == Flatten(parts);
      NextPhase(p, mine, parts);
      var j := parts[0][0];
      if Hits(p, j, mine) {
        StaysAhead(p, [j], [j], parts[0][1..], parts[1..]);
      } else {
        OneBehind(p, mine + [j], [j], parts[0][1..], parts[1..]);
      }
    } else {
      assert q + Flatten(parts) == [];
    }
  }

  /** The other partition starts its next phase. */
  lemma NextPhase(p: Program, mine: seq<nat>, parts: seq<seq<nat>>)
    requires LegalParts(p, parts) && parts != [] && mine != [] && InRange(p, mine) && InRange(p, Flatten(parts))
    ensures LegalParts(p, parts[1..]) && parts[0] != [] && Legal(p, [parts[0][0]] + parts[0][1..])
    ensures var j, rest := parts[0][0], parts[0][1..] + Flatten(parts[1..]);
            && j < |p.instrs| && InRange(p, [j]) && InRange(p, rest) && InRange(p, mine + [j])
            && Greedy(p, mine, Flatten(parts))
              == if Hits(p, j, mine) then [mine] + Greedy(p, [j], rest) else Greedy(p, mine + [j], rest)
  {
    hide Legal, LegalParts, Hits, InRange, Greedy;
    FirstPart(p, parts);
    HeadOut(parts);
    GreedyStep(p, mine, parts[0][0], parts[0][1..] + Flatten(parts[1..]));
  }

  /** Even with an arbitrary current phase the greedy cut loses at most one phase. */
  lemma {:induction false} OneBehind(p: Program, mine: seq<nat>, theirs: seq<nat>, q: seq<nat>, parts: seq<seq<nat>>)
    requires LegalParts(p, parts) && Legal(p, theirs + q)
    requires mine != [] && InRange(p, mine)
    ensures InRange(p, q + Flatten(parts))
    ensures |Greedy(p, mine, q + Flatten(parts))| <= 2 + |parts|
    decreases |parts|, |q|, 1
  {
    hide Legal, LegalParts, Hits, InRange;
    RestInRange(p, theirs, q, parts);
    if q != [] {
      Moved(p, theirs, q, Flatten(parts));
      GreedyStep(p, mine, q[0], q[1..] + Flatten(parts));
      if Hits(p, q[0], mine) {
        StaysAhead(p, [q[0]], theirs + [q[0]], q[1..], parts);
      } else {
        OneBehind(p, mine + [q[0]], theirs + [q[0]], q[1..], parts);
      }
    } else if parts != [] {
      assert q + Flatten(parts) == Flatten(parts);
      NextPhase(p, mine, parts);
      var j := parts[0][0];
      if Hits(p, j, mine) {
        StaysAhead(p, [j], [j], parts[0][1..], parts[1..]);
      } else {
        OneBehind(p, mine + [j], [j], parts[0][1..], parts[1..]);
      }
    } else {
      assert q + Flatten(parts) == [];
    }
  }

  // ----- the indexed cut ------------------------------------------------------

  function Lookup(index: map<nat, set<nat>>, b: nat): set<nat> {
    if b in index then index[b] else {}
  }

  /** `r` is `index` with `i` recorded under every buffer of `bufs`. */
  ghost predicate Tracked(index: map<nat, set<nat>>, r: map<nat, set<nat>>, bufs: set<nat>, i: nat) {
    forall b, x :: x in Lookup(r, b) <==> x in Lookup(index, b) || (x == i && b in bufs)
  }

  /** Records `i` under every buffer of `bufs`. */
  method Track(index: map<nat, set<nat>>, bufs: set<nat>, i: nat) returns (r: map<nat, set<nat>>)
    ensures Tracked(index, r, bufs, i)
  {
    r := index;
    var todo := bufs;
    while todo != {}
      invariant todo <= bufs
      invariant forall b, x :: x in Lookup(r, b) <==> x in Lookup(index, b) || (x == i && b in bufs - todo)
      decreases |todo|
    {
      var b :| b in todo;
      var more := Lookup(r, b) + {i};
      var was := r;
      r := r[b := more];
      todo := todo - {b};
      assert forall c :: Lookup(r, c) == if c == b then more else Lookup(was, c);
    }
  }

  /** The members recorded for any buffer of `bufs`. */
  method Gather(index: map<nat, set<nat>>, bufs: set<nat>) returns (cand: set<nat>)
    ensures forall i :: i in cand <==> exists b :: b in bufs && i in Lookup(index, b)
  {
    cand := {};
    var todo := bufs;
    while todo != {}
      invariant todo <= bufs
      invariant forall i :: i in cand <==> exists b :: b in bufs - todo && i in Lookup(index, b)
      decreases |todo|
    {
      var b :| b in todo;
      cand := cand + Lookup(index, b);
      todo := todo - {b};
    }
  }

  predicate Shares(p: Program, j: nat, i: nat)
    requires j < |p.instrs| && i < |p.instrs|
  {
    || Reads(p.tg, p.instrs[j]) * Writes(p.instrs[i]) != {}
    || Writes(p.instrs[j]) * Writes(p.instrs[i]) != {}
    || Writes(p.instrs[j]) * Reads(p.tg, p.instrs[i]) != {}
  }

  /** Testing only instructions that share a buffer loses no boundary. */
  lemma BoundaryShares(p: Program, j: nat, i: nat)
    requires j < |p.instrs| && i < |p.instrs| && Boundary(p, j, i)
    ensures Shares(p, j, i)
  {
    var x, y := p.instrs[i], p.instrs[j];
    var grouped := x.disjoint != 0 && x.disjoint == y.disjoint;
    var aw := if grouped then Writes(x) - Writes(y) else Writes(x);
    var bw := if grouped then Writes(y) - Writes(x) else Writes(y);
    assert aw <= Writes(x) && bw <= Writes(y);
    if b :| b in Reads(p.tg, y) * aw {
      assert b in Reads(p.tg, y) * Writes(x);
    } else if b :| b in bw * aw {
      assert b in Writes(y) * Writes(x);
    } else {
      assert Depends(p.tg, y, x);
      var b :| b in Reads(p.tg, x) * bw;
      assert b in Writes(y) * Reads(p.tg, x);
    }
  }

  /** The members of the current phase that share a buffer with instruction `j`. */
  method Candidates(p: Program, cur: seq<nat>, readers: map<nat, set<nat>>, writers: map<nat, set<nat>>, j: nat)
    returns (cand: set<nat>)
    requires InRange(p, cur) && j < |p.instrs|
    requires Tracks(p, cur, readers, writers)
    ensures forall i :: i in cand <==> i in cur && Shares(p, j, i)
  {
    var tg, y := p.tg, p.instrs[j];
    var c0 := Gather(writers, Reads(tg, y));
    var c1 := Gather(writers, Writes(y));
    var c2 := Gather(readers, Writes(y));
    cand := c0 + c1 + c2;
    forall i
      ensures i in c0 <==> i in cur && Reads(tg, y) * Writes(p.instrs[i]) != {}
      ensures i in c1 <==> i in cur && Writes(y) * Writes(p.instrs[i]) != {}
      ensures i in c2 <==> i in cur && Writes(y) * Reads(tg, p.instrs[i]) != {}
    {
      if i in c0 {
        var b :| b in Reads(tg, y) && i in Lookup(writers, b);
        assert b in Reads(tg, y) * Writes(p.instrs[i]);
      }
      if i in cur {
        var x := p.instrs[i];
        assert Reads(tg, y) * Writes(x) != {} ==> exists b :: b in Reads(tg, y) && b in Writes(x);
        assert Writes(y) * Writes(x) != {} ==> exists b :: b in Writes(y) && b in Writes(x);
        assert Writes(y) * Reads(tg, x) != {} ==> exists b :: b in Writes(y) && b in Reads(tg, x);
      }
    }
  }

  ghost predicate Tracks(p: Program, cur: seq<nat>, readers: map<nat, set<nat>>, writers: map<nat, set<nat>>)
    requires InRange(p, cur)
  {
    && (forall b, i :: i in Lookup(readers, b) <==> i in cur && b in Reads(p.tg, p.instrs[i]))
    && (forall b, i :: i in Lookup(writers, b) <==> i in cur && b in Writes(p.instrs[i]))
  }

  lemma CandidatesDecide(p: Program, cur: seq<nat>, cand: set<nat>, j: nat)
    requires InRange(p, cur) && j < |p.instrs| && forall i :: i in cand <==> i in cur && Shares(p, j, i)
    ensures (exists i :: i in cand && Boundary(p, j, i)) <==> Hits(p, j, cur)
  {
    hide Boundary, Shares;
    if Hits(p, j, cur) {
      var x :| 0 <= x < |cur| && Boundary(p, j, cur[x]);
      BoundaryShares(p, j, cur[x]);
      assert cur[x] in cand;
    }
  }

  /** The phases closed so far, the current phase and the rest of the input make up the cut. */
  predicate SoFar(p: Program, indices: seq<nat>, phases: seq<seq<nat>>, cur: seq<nat>, k: nat) {
    && InRange(p, indices) && InRange(p, cur) && k <= |indices|
    && Greedy(p, [], indices) == phases + Greedy(p, cur, indices[k..])
  }

  lemma SoFarNext(p: Program, indices: seq<nat>, phases: seq<seq<nat>>, cur: seq<nat>, k: nat)
    requires SoFar(p, indices, phases, cur, k) && k < |indices|
    ensures InRange(p, cur) && indices[k] < |p.instrs|
    ensures if cur != [] && Hits(p, indices[k], cur) then SoFar(p, indices, phases + [cur], [indices[k]], k + 1)
            else SoFar(p, indices, phases, cur + [indices[k]], k + 1)
  {
    hide Hits, Greedy;
    var j, rest := indices[k], indices[k + 1..];
    assert indices[k..] == [j] + rest;
    GreedyStep(p, cur, j, rest);
    if cur != [] && Hits(p, j, cur) {
      assert phases + ([cur] + Greedy(p, [j], rest)) == phases + [cur] + Greedy(p, [j], rest);
    }
  }

  lemma NothingTracked(p: Program)
    ensures Tracks(p, [], map[], map[])
  {
  }

  lemma TracksNext(p: Program, cur: seq<nat>, readers: map<nat, set<nat>>, writers: map<nat, set<nat>>,
                   readers': map<nat, set<nat>>, writers': map<nat, set<nat>>, j: nat)
    requires InRange(p, cur) && j < |p.instrs| && Tracks(p, cur, readers, writers)
    requires Tracked(readers, readers', Reads(p.tg, p.instrs[j]), j)
    requires Tracked(writers, writers', Writes(p.instrs[j]), j)
    ensures InRange(p, cur + [j]) && Tracks(p, cur + [j], readers', writers')
  {
    hide Lookup, Reads, Writes;
    assert forall i :: i in cur + [j] <==> i in cur || i == j;
  }

  /** The shipped cut, with its per-buffer reader and writer indexes, makes the decisions of
      the defining one. */
  method Phases(p: Program, indices: seq<nat>) returns (phases: seq<seq<nat>>)
    requires InRange(p, indices)
    ensures phases == Greedy(p, [], indices)
  {
    hide Hits, Boundary, Shares, Tracks, Tracked, Reads, Writes;
    var cur: seq<nat> := [];
    var phReaders: map<nat, set<nat>> := map[];
    var phWriters: map<nat, set<nat>> := map[];
    phases := [];
    var k := 0;
    NothingTracked(p);
    while k < |indices|
      invariant 0 <= k <= |indices|
      invariant InRange(p, cur) && Tracks(p, cur, phReaders, phWriters)
      invariant SoFar(p, indices, phases, cur, k)
    {
      var j := indices[k];
      var cand := Candidates(p, cur, phReaders, phWriters, j);
      var hit := exists i :: i in cand && Boundary(p, j, i);
      CandidatesDecide(p, cur, cand, j);
      SoFarNext(p, indices, phases, cur, k);
      if cur != [] && hit {
        phases := phases + [cur];
        cur, phReaders, phWriters := [], map[], map[];
        NothingTracked(p);
        assert [] + [j] == [j];
      }
      ghost var readers, writers := phReaders, phWriters;
      phReaders := Track(phReaders, Reads(p.tg, p.instrs[j]), j);
      phWriters := Track(phWriters, Writes(p.instrs[j]), j);
      TracksNext(p, cur, readers, writers, phReaders, phWriters, j);
      cur := cur + [j];
      k := k + 1;
    }
    assert indices[k..] == [];
    if cur != [] {
      phases := phases + [cur];
    }
  }
}
