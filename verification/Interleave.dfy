/** Interleavings of lane programs, and the argument that reordering steps which do not
    conflict cannot be observed. Nothing here knows about tensors: a lane is a sequence of
    steps, a schedule says which lane moves next, and steps act on a memory. */
module Interleave {

  /** One tile of one instruction, the unit of interleaving. */
  datatype Step = Step(instr: nat, tile: nat)

  /** Program order on steps: instruction first, then tile. */
  predicate Less(a: Step, b: Step) {
    a.instr < b.instr || (a.instr == b.instr && a.tile < b.tile)
  }

  /** `sched` names the lane that moves at each instant and runs every lane to its end. */
  predicate ValidSched(lanes: seq<seq<Step>>, sched: seq<nat>)
    decreases |sched|
  {
    if sched == [] then forall L | 0 <= L < |lanes| :: lanes[L] == []
    else
      && sched[0] < |lanes|
      && lanes[sched[0]] != []
      && ValidSched(Advance(lanes, sched[0]), sched[1..])
  }

  /** The lanes after lane `L` has moved once. */
  function Advance(lanes: seq<seq<Step>>, L: nat): seq<seq<Step>>
    requires L < |lanes| && lanes[L] != []
  {
    lanes[L := lanes[L][1..]]
  }

  /** The one global order of steps that a schedule produces. */
  function Weave(lanes: seq<seq<Step>>, sched: seq<nat>): (w: seq<Step>)
    requires ValidSched(lanes, sched)
    decreases |sched|
  {
    if sched == [] then [] else [lanes[sched[0]][0]] + Weave(Advance(lanes, sched[0]), sched[1..])
  }

  function Bag(lanes: seq<seq<Step>>): multiset<Step> {
    if lanes == [] then multiset{} else multiset(lanes[0]) + Bag(lanes[1..])
  }

  lemma {:induction false} BagUpdate(lanes: seq<seq<Step>>, L: nat, s: seq<Step>)
    requires L < |lanes|
    ensures Bag(lanes[L := s]) + multiset(lanes[L]) == Bag(lanes) + multiset(s)
  {
    if L == 0 {
      assert lanes[L := s][1..] == lanes[1..];
    } else {
      assert lanes[L := s][1..] == lanes[1..][L - 1 := s];
      BagUpdate(lanes[1..], L - 1, s);
      var head, was, now := multiset(lanes[0]), Bag(lanes[1..]), Bag(lanes[1..][L - 1 := s]);
      assert head + now + multiset(lanes[L]) == head + (now + multiset(lanes[L]));
      assert head + was + multiset(s) == head + (was + multiset(s));
    }
  }

  lemma {:induction false} BagOfEmpty(lanes: seq<seq<Step>>)
    requires forall L | 0 <= L < |lanes| :: lanes[L] == []
    ensures Bag(lanes) == multiset{}
  {
    if lanes == [] {
    } else {
      BagOfEmpty(lanes[1..]);
    }
  }

  lemma BagCancel(a: multiset<Step>, b: multiset<Step>, c: multiset<Step>, d: multiset<Step>)
    requires a + (b + c) == d + c
    ensures a + b == d
  {
    forall e
      ensures (a + b)[e] == d[e]
    {
      assert (a + (b + c))[e] == (d + c)[e];
    }
  }

  /** No interleaving loses or duplicates a step. */
  lemma {:induction false} WeaveBag(lanes: seq<seq<Step>>, sched: seq<nat>)
    requires ValidSched(lanes, sched)
    ensures multiset(Weave(lanes, sched)) == Bag(lanes)
    decreases |sched|
  {
    if sched == [] {
      BagOfEmpty(lanes);
    } else {
      var L := sched[0];
      WeaveBag(Advance(lanes, L), sched[1..]);
      BagUpdate(lanes, L, lanes[L][1..]);
      var head, tail, after := lanes[L][0], multiset(lanes[L][1..]), Bag(Advance(lanes, L));
      assert lanes[L] == [head] + lanes[L][1..];
      assert after + (multiset{head} + tail) == Bag(lanes) + tail;
      BagCancel(after, multiset{head}, tail, Bag(lanes));
    }
  }

  lemma {:induction false} WeaveMember(lanes: seq<seq<Step>>, sched: seq<nat>, y: nat)
    returns (L: nat, q: nat)
    requires ValidSched(lanes, sched)
    requires y < |Weave(lanes, sched)|
    ensures L < |lanes| && q < |lanes[L]| && Weave(lanes, sched)[y] == lanes[L][q]
    ensures y > 0 && L == sched[0] ==> q > 0
    decreases |sched|
  {
    if y == 0 {
      L, q := sched[0], 0;
    } else {
      L, q := WeaveMember(Advance(lanes, sched[0]), sched[1..], y - 1);
      if L == sched[0] {
        q := q + 1;
      }
    }
  }

  /** No two steps of `s`, in their order, are related by `bad`. */
  ghost predicate Clean(s: seq<Step>, bad: (Step, Step) -> bool) {
    forall x, y | 0 <= x < y < |s| :: !bad(s[x], s[y])
  }

  /** No step of `s` is related to a step of `t`. */
  ghost predicate CleanPair(s: seq<Step>, t: seq<Step>, bad: (Step, Step) -> bool) {
    forall x, y | 0 <= x < |s| && 0 <= y < |t| :: !bad(s[x], t[y])
  }

  lemma CleanConcat(s: seq<Step>, t: seq<Step>, bad: (Step, Step) -> bool)
    requires Clean(s, bad) && Clean(t, bad) && CleanPair(s, t, bad)
    ensures Clean(s + t, bad)
  {
    forall x, y | 0 <= x < y < |s + t|
      ensures !bad((s + t)[x], (s + t)[y])
    {
      if x < |s| <= y {
        assert !bad(s[x], t[y - |s|]);
      }
    }
  }

  ghost predicate CleanLanes(lanes: seq<seq<Step>>, bad: (Step, Step) -> bool) {
    && (forall L | 0 <= L < |lanes| :: Clean(lanes[L], bad))
    && (forall L, R | 0 <= L < |lanes| && 0 <= R < |lanes| && L != R :: CleanPair(lanes[L], lanes[R], bad))
  }

  /** A relation that holds of no two steps of different lanes, and of no two steps of one
      lane in their lane order, holds of no two steps of any interleaving in its order. */
  lemma {:induction false} WeaveAvoids(lanes: seq<seq<Step>>, sched: seq<nat>, bad: (Step, Step) -> bool)
    requires ValidSched(lanes, sched) && CleanLanes(lanes, bad)
    ensures Clean(Weave(lanes, sched), bad)
    decreases |sched|
  {
    if sched == [] {
    } else {
      var k := sched[0];
      var rest, w := Advance(lanes, k), Weave(lanes, sched);
      assert CleanLanes(rest, bad) by {
        forall L, R | 0 <= L < |rest| && 0 <= R < |rest| && L != R
          ensures CleanPair(rest[L], rest[R], bad)
        {
          assert CleanPair(lanes[L], lanes[R], bad);
        }
        assert Clean(lanes[k], bad);
      }
      WeaveAvoids(rest, sched[1..], bad);
      forall y | 0 <= y < |w[1..]|
        ensures !bad(w[0], w[1..][y])
      {
        var L, q := WeaveMember(lanes, sched, y + 1);
        assert Clean(lanes[L], bad) && (L != k ==> CleanPair(lanes[k], lanes[L], bad));
      }
      CleanConcat([w[0]], w[1..], bad);
      assert w == [w[0]] + w[1..];
    }
  }

  /** Running the lanes one after another is one of the schedules. */
  function LaneByLane(lanes: seq<seq<Step>>, from: nat): (sched: seq<nat>)
    requires from <= |lanes|
    requires forall L | 0 <= L < from :: lanes[L] == []
    ensures ValidSched(lanes, sched)
    decreases |lanes| - from, if from < |lanes| then |lanes[from]| else 0
  {
    if from == |lanes| then []
    else if lanes[from] == [] then LaneByLane(lanes, from + 1)
    else [from] + LaneByLane(Advance(lanes, from), from)
  }

  // ----- sorting a trace into program order ---------------------------------

  predicate Ascending(s: seq<Step>) {
    forall x, y | 0 <= x < y < |s| :: !Less(s[y], s[x])
  }

  function Insert(a: Step, s: seq<Step>): (r: seq<Step>)
    ensures multiset(r) == multiset{a} + multiset(s)
  {
    if s == [] || !Less(s[0], a) then [a] + s
    else
      assert s == [s[0]] + s[1..];
      [s[0]] + Insert(a, s[1..])
  }

  function Sort(s: seq<Step>): (r: seq<Step>)
    ensures multiset(r) == multiset(s)
  {
    if s == [] then []
    else
      assert s == [s[0]] + s[1..];
      Insert(s[0], Sort(s[1..]))
  }

  lemma {:induction false} InsertAscending(a: Step, s: seq<Step>)
    requires Ascending(s)
    ensures Ascending(Insert(a, s))
  {
    if s == [] || !Less(s[0], a) {
      forall y | 0 <= y < |s|
        ensures !Less(s[y], a)
      {
        assert y > 0 ==> !Less(s[y], s[0]);
      }
    } else {
      var r := Insert(a, s[1..]);
      InsertAscending(a, s[1..]);
      forall y | 0 <= y < |r|
        ensures !Less(r[y], s[0])
      {
        assert r[y] in multiset(r);
        if r[y] != a {
          var z :| 0 <= z < |s[1..]| && s[1..][z] == r[y];
          assert !Less(s[z + 1], s[0]);
        }
      }
    }
  }

  lemma {:induction false} SortAscending(s: seq<Step>)
    ensures Ascending(Sort(s))
  {
    if s == [] {
    } else {
      SortAscending(s[1..]);
      InsertAscending(s[0], Sort(s[1..]));
    }
  }

  lemma AscendingHead(s: seq<Step>, t: seq<Step>)
    requires Ascending(s) && s != [] && t != []
    requires t[0] in multiset(s)
    ensures !Less(t[0], s[0])
  {
    var y :| 0 <= y < |s| && s[y] == t[0];
  }

  lemma DropHead(s: seq<Step>)
    requires s != []
    ensures multiset(s[1..]) == multiset(s) - multiset{s[0]}
    ensures Ascending(s) ==> Ascending(s[1..])
  {
    assert s == [s[0]] + s[1..];
  }

  /** Two ascending traces of the same steps are the same trace. */
  lemma {:induction false} AscendingUnique(s: seq<Step>, t: seq<Step>)
    requires Ascending(s) && Ascending(t)
    requires multiset(s) == multiset(t)
    ensures s == t
  {
    hide Ascending;
    assert |multiset(s)| == |multiset(t)|;
    if s == [] {
    } else {
      assert s[0] in multiset(s) && t[0] in multiset(t);
      AscendingHead(s, t);
      AscendingHead(t, s);
      DropHead(s);
      DropHead(t);
      AscendingUnique(s[1..], t[1..]);
      assert s == [s[0]] + s[1..] && t == [t[0]] + t[1..];
    }
  }

  // ----- executing a trace ----------------------------------------------------

  function Run<M(!new)>(act: (Step, M) -> M, s: seq<Step>, m: M): M {
    if s == [] then m else Run(act, s[1..], act(s[0], m))
  }

  lemma {:induction false} RunConcat<M(!new)>(act: (Step, M) -> M, s: seq<Step>, t: seq<Step>, m: M)
    ensures Run(act, s + t, m) == Run(act, t, Run(act, s, m))
  {
    if s == [] {
      assert s + t == t;
    } else {
      assert (s + t)[1..] == s[1..] + t;
      RunConcat(act, s[1..], t, act(s[0], m));
    }
  }

  ghost predicate Commute<M(!new)>(act: (Step, M) -> M, a: Step, b: Step) {
    forall m :: act(b, act(a, m)) == act(a, act(b, m))
  }

  /** Inserting a step where it belongs is the same as running it first, when it commutes
      with every step it passes. */
  lemma {:induction false} RunInsert<M(!new)>(act: (Step, M) -> M, a: Step, s: seq<Step>, m: M)
    requires forall y | 0 <= y < |s| && Less(s[y], a) :: Commute(act, a, s[y])
    ensures Run(act, Insert(a, s), m) == Run(act, [a] + s, m)
  {
    if s == [] || !Less(s[0], a) {
    } else {
      RunInsert(act, a, s[1..], act(s[0], m));
      assert Commute(act, a, s[0]);
      assert ([a] + s)[1..] == s && ([a] + s[1..])[1..] == s[1..];
      assert Run(act, [a] + s, m) == Run(act, s[1..], act(s[0], act(a, m)));
    }
  }

  /** The reordering theorem: a trace in which every inverted pair commutes has the effect of
      the same steps in program order. */
  lemma {:induction false} RunSorted<M(!new)>(act: (Step, M) -> M, s: seq<Step>, m: M)
    requires forall x, y | 0 <= x < y < |s| && Less(s[y], s[x]) :: Commute(act, s[x], s[y])
    ensures Run(act, s, m) == Run(act, Sort(s), m)
  {
    if s == [] {
    } else {
      RunSorted(act, s[1..], act(s[0], m));
      var r := Sort(s[1..]);
      forall y | 0 <= y < |r| && Less(r[y], s[0])
        ensures Commute(act, s[0], r[y])
      {
        assert r[y] in multiset(r);
        var z :| 0 <= z < |s[1..]| && s[1..][z] == r[y];
        assert s[z + 1] == r[y];
      }
      RunInsert(act, s[0], r, m);
    }
  }
}
