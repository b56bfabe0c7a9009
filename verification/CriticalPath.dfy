/** The overlap ceiling of a phase sequence: sparse dependence edges kept from the last writer and
    the readers since, and the longest weighted path over them. */
module CriticalPath {

  datatype Phase = Phase(cost: real, inputs: set<nat>, outputs: set<nat>)

  // ----- conflicts and sparse edges -----------------------------------------------------------

  predicate Writes(ps: seq<Phase>, a: nat, buf: nat) { a < |ps| && buf in ps[a].outputs }
  predicate Reads(ps: seq<Phase>, a: nat, buf: nat) { a < |ps| && buf in ps[a].inputs }

  /** RAW, WAW or WAR on one buffer. */
  predicate ConflictOn(ps: seq<Phase>, a: nat, b: nat, buf: nat) {
    && a < b
    && ((Writes(ps, a, buf) && (Reads(ps, b, buf) || Writes(ps, b, buf))) || (Reads(ps, a, buf) && Writes(ps, b, buf)))
  }

  /** The order that every schedule of the phases has to keep. */
  ghost predicate Conflict(ps: seq<Phase>, a: nat, b: nat) {
    exists buf :: ConflictOn(ps, a, b, buf)
  }

  predicate WritesWithin(ps: seq<Phase>, lo: nat, hi: nat, buf: nat) {
    exists w: nat :: lo <= w < hi && Writes(ps, w, buf)
  }

  predicate LastWriter(ps: seq<Phase>, b: nat, buf: nat, a: nat) {
    a < b && Writes(ps, a, buf) && !WritesWithin(ps, a + 1, b, buf)
  }

  /** `r` has read the buffer, and no phase after `r` and before `b` writes it. */
  predicate ReaderSince(ps: seq<Phase>, b: nat, buf: nat, r: nat) {
    r < b && Reads(ps, r, buf) && !WritesWithin(ps, r + 1, b, buf)
  }

  predicate EdgeOn(ps: seq<Phase>, a: nat, b: nat, buf: nat) {
    || (LastWriter(ps, b, buf, a) && (Reads(ps, b, buf) || Writes(ps, b, buf)))
    || (ReaderSince(ps, b, buf, a) && Writes(ps, b, buf))
  }

  ghost predicate Edge(ps: seq<Phase>, a: nat, b: nat) {
    exists buf :: EdgeOn(ps, a, b, buf)
  }

  ghost predicate Path(ps: seq<Phase>, a: nat, b: nat)
    decreases b
  {
    a < b && (Edge(ps, a, b) || exists z: nat :: z < b && Path(ps, a, z) && Edge(ps, z, b))
  }

  lemma EdgeIsConflict(ps: seq<Phase>, a: nat, b: nat)
    requires Edge(ps, a, b)
    ensures Conflict(ps, a, b)
  {
    var buf :| EdgeOn(ps, a, b, buf);
    assert ConflictOn(ps, a, b, buf);
  }

  lemma {:induction false} FindLastWriter(ps: seq<Phase>, lo: nat, b: nat, buf: nat)
    returns (a: nat)
    requires WritesWithin(ps, lo, b, buf)
    ensures lo <= a && LastWriter(ps, b, buf, a)
    decreases b
  {
    if Writes(ps, b - 1, buf) {
      a := b - 1;
    } else {
      assert WritesWithin(ps, lo, b - 1, buf);
      a := FindLastWriter(ps, lo, b - 1, buf);
    }
  }

  /** Every conflict is covered by sparse edges through the writers in between. */
  lemma {:induction false} ConflictIsPath(ps: seq<Phase>, a: nat, b: nat, buf: nat)
    requires ConflictOn(ps, a, b, buf)
    ensures Path(ps, a, b)
    decreases b
  {
    if WritesWithin(ps, a + 1, b, buf) {
      var w := FindLastWriter(ps, a + 1, b, buf);
      ConflictIsPath(ps, a, w, buf);
      assert EdgeOn(ps, w, b, buf);
      assert Path(ps, a, w) && Edge(ps, w, b);
    } else {
      assert EdgeOn(ps, a, b, buf);
    }
  }

  /** Reachability over all pairs of conflicting phases. */
  ghost predicate Reach(ps: seq<Phase>, a: nat, b: nat)
    decreases b
  {
    a < b && (Conflict(ps, a, b) || exists z: nat :: z < b && Reach(ps, a, z) && Conflict(ps, z, b))
  }

  lemma {:induction false} PathsJoin(ps: seq<Phase>, a: nat, z: nat, b: nat)
    requires Path(ps, a, z) && Path(ps, z, b)
    ensures Path(ps, a, b)
    decreases b
  {
    if Edge(ps, z, b) {
    } else {
      var y: nat :| y < b && Path(ps, z, y) && Edge(ps, y, b);
      PathsJoin(ps, a, z, y);
    }
  }

  /** The sparse edges and the all-pairs conflicts have one transitive closure. */
  lemma {:induction false} SameClosure(ps: seq<Phase>, a: nat, b: nat)
    ensures Path(ps, a, b) <==> Reach(ps, a, b)
    decreases b
  {
    if Path(ps, a, b) {
      if Edge(ps, a, b) {
        EdgeIsConflict(ps, a, b);
      } else {
        var z: nat :| z < b && Path(ps, a, z) && Edge(ps, z, b);
        SameClosure(ps, a, z);
        EdgeIsConflict(ps, z, b);
      }
    }
    if Reach(ps, a, b) {
      if Conflict(ps, a, b) {
        var buf :| ConflictOn(ps, a, b, buf);
        ConflictIsPath(ps, a, b, buf);
      } else {
        var z: nat :| z < b && Reach(ps, a, z) && Conflict(ps, z, b);
        SameClosure(ps, a, z);
        var buf :| ConflictOn(ps, z, b, buf);
        ConflictIsPath(ps, z, b, buf);
        PathsJoin(ps, a, z, b);
      }
    }
  }

  // ----- building the edges -------------------------------------------------------------------

  function At(index: map<nat, set<nat>>, buf: nat): set<nat> {
    if buf in index then index[buf] else {}
  }

  predicate IsLast(lw: map<nat, nat>, buf: nat, a: nat) { buf in lw && lw[buf] == a }

  ghost predicate LastIndex(ps: seq<Phase>, b: nat, lw: map<nat, nat>) {
    forall buf, a {:trigger LastWriter(ps, b, buf, a)} :: IsLast(lw, buf, a) <==> LastWriter(ps, b, buf, a)
  }

  ghost predicate ReaderIndex(ps: seq<Phase>, b: nat, rs: map<nat, set<nat>>) {
    forall buf, r {:trigger ReaderSince(ps, b, buf, r)} :: r in At(rs, buf) <==> ReaderSince(ps, b, buf, r)
  }

  /** What the two indexes hold before phase `b`. */
  ghost predicate Indexed(ps: seq<Phase>, b: nat, lastWriter: map<nat, nat>, readersSince: map<nat, set<nat>>) {
    LastIndex(ps, b, lastWriter) && ReaderIndex(ps, b, readersSince)
  }

  method ReadEdges(lastWriter: map<nat, nat>, bufs: set<nat>) returns (d: set<nat>)
    ensures forall a :: a in d <==> exists buf :: buf in bufs && IsLast(lastWriter, buf, a)
  {
    d := {};
    var todo := bufs;
    while todo != {}
      invariant todo <= bufs
      invariant forall a :: a in d <==> exists buf :: buf in bufs - todo && IsLast(lastWriter, buf, a)
      decreases |todo|
    {
      var buf :| buf in todo;
      ghost var was := d;
      if buf in lastWriter {
        d := d + {lastWriter[buf]};
      }
      assert forall a :: a in d <==> a in was || IsLast(lastWriter, buf, a);
      todo := todo - {buf};
    }
  }

  predicate WriteEdge(lastWriter: map<nat, nat>, readersSince: map<nat, set<nat>>, buf: nat, b: nat, a: nat) {
    (IsLast(lastWriter, buf, a)) || (a in At(readersSince, buf) && a != b)
  }

  method WriteEdges(lastWriter: map<nat, nat>, readersSince: map<nat, set<nat>>, bufs: set<nat>, b: nat)
    returns (d: set<nat>)
    ensures forall a :: a in d <==> exists buf :: buf in bufs && WriteEdge(lastWriter, readersSince, buf, b, a)
  {
    d := {};
    var todo := bufs;
    while todo != {}
      invariant todo <= bufs
      invariant forall a :: a in d <==> exists buf ::
          buf in bufs - todo && WriteEdge(lastWriter, readersSince, buf, b, a)
      decreases |todo|
    {
      var buf :| buf in todo;
      ghost var was := d;
      if buf in lastWriter {
        d := d + {lastWriter[buf]};
      }
      d := d + (At(readersSince, buf) - {b});
      assert forall a :: a in d <==> a in was || WriteEdge(lastWriter, readersSince, buf, b, a);
      todo := todo - {buf};
    }
  }

  ghost predicate LastMoved(b: nat, bufs: set<nat>, was: map<nat, nat>, lw: map<nat, nat>) {
    forall buf, a :: IsLast(lw, buf, a) <==> if buf in bufs then a == b else IsLast(was, buf, a)
  }

  /** A phase becomes the last writer of what it writes, and all earlier readers are settled. */
  method RecordWrites(lastWriter: map<nat, nat>, readersSince: map<nat, set<nat>>, bufs: set<nat>, b: nat)
    returns (lw: map<nat, nat>, rs: map<nat, set<nat>>)
    ensures LastMoved(b, bufs, lastWriter, lw)
    ensures forall buf, r :: r in At(rs, buf) <==> r in At(readersSince, buf) && buf !in bufs
  {
    lw, rs := lastWriter, readersSince;
    var todo := bufs;
    while todo != {}
      invariant todo <= bufs
      invariant LastMoved(b, bufs - todo, lastWriter, lw)
      invariant forall buf, r :: r in At(rs, buf) <==> r in At(readersSince, buf) && buf !in bufs - todo
      decreases |todo|
    {
      var buf :| buf in todo;
      ghost var lw0, rs0 := lw, rs;
      lw := lw[buf := b];
      rs := rs[buf := {}];
      assert forall c, a :: IsLast(lw, c, a) <==> if c == buf then a == b else IsLast(lw0, c, a);
      assert forall c :: At(rs, c) == if c == buf then {} else At(rs0, c);
      todo := todo - {buf};
    }
  }

  method RecordReads(readersSince: map<nat, set<nat>>, bufs: set<nat>, b: nat) returns (rs: map<nat, set<nat>>)
    ensures forall buf, r :: r in At(rs, buf) <==> r in At(readersSince, buf) || (r == b && buf in bufs)
  {
    rs := readersSince;
    var todo := bufs;
    while todo != {}
      invariant todo <= bufs
      invariant forall buf, r :: r in At(rs, buf) <==> r in At(readersSince, buf) || (r == b && buf in bufs - todo)
      decreases |todo|
    {
      var buf :| buf in todo;
      var more, was := At(rs, buf) + {b}, rs;
      rs := rs[buf := more];
      todo := todo - {buf};
      assert forall c :: At(rs, c) == if c == buf then more else At(was, c);
    }
  }

  lemma LastStep(ps: seq<Phase>, b: nat, was: map<nat, nat>, lw: map<nat, nat>)
    requires b < |ps| && LastIndex(ps, b, was) && LastMoved(b, ps[b].outputs, was, lw)
    ensures LastIndex(ps, b + 1, lw)
  {
    forall buf, a
      ensures IsLast(lw, buf, a) <==> LastWriter(ps, b + 1, buf, a)
    {
      WithinStep(ps, a, b, buf);
      assert IsLast(was, buf, a) <==> LastWriter(ps, b, buf, a);
    }
  }

  lemma ReaderStep(ps: seq<Phase>, b: nat, was: map<nat, set<nat>>, rs: map<nat, set<nat>>)
    requires b < |ps| && ReaderIndex(ps, b, was)
    requires forall buf, r :: r in At(rs, buf) <==>
        (r in At(was, buf) && buf !in ps[b].outputs) || (r == b && buf in ps[b].inputs)
    ensures ReaderIndex(ps, b + 1, rs)
  {
    forall buf, r
      ensures r in At(rs, buf) <==> ReaderSince(ps, b + 1, buf, r)
    {
      WithinStep(ps, r, b, buf);
      assert r in At(was, buf) <==> ReaderSince(ps, b, buf, r);
    }
  }

  lemma WithinStep(ps: seq<Phase>, a: nat, b: nat, buf: nat)
    ensures a < b ==> (WritesWithin(ps, a + 1, b + 1, buf) <==> WritesWithin(ps, a + 1, b, buf) || Writes(ps, b, buf))
    ensures a >= b ==> !WritesWithin(ps, a + 1, b + 1, buf)
  {
  }

  method BuildEdges(ps: seq<Phase>) returns (deps: seq<set<nat>>)
    ensures |deps| == |ps|
    ensures forall b, a :: 0 <= b < |ps| ==> (a in deps[b] <==> Edge(ps, a, b))
  {
    deps := [];
    var lastWriter: map<nat, nat> := map[];
    var readersSince: map<nat, set<nat>> := map[];
    var b := 0;
    while b < |ps|
      invariant 0 <= b <= |ps| && |deps| == b
      invariant Indexed(ps, b, lastWriter, readersSince)
      invariant forall x, a :: 0 <= x < b ==> (a in deps[x] <==> Edge(ps, a, x))
    {
      var fromReads := ReadEdges(lastWriter, ps[b].inputs);
      var fromWrites := WriteEdges(lastWriter, readersSince, ps[b].outputs, b);
      forall a
        ensures a in fromReads + fromWrites <==> Edge(ps, a, b)
      {
        if a in fromReads {
          var buf :| buf in ps[b].inputs && IsLast(lastWriter, buf, a);
          assert EdgeOn(ps, a, b, buf);
        }
        if a in fromWrites {
          var buf :| buf in ps[b].outputs && WriteEdge(lastWriter, readersSince, buf, b, a);
          assert EdgeOn(ps, a, b, buf);
        }
        if Edge(ps, a, b) {
          var buf :| EdgeOn(ps, a, b, buf);
        }
      }
      deps := deps + [fromReads + fromWrites];
      ghost var lw0, rs0 := lastWriter, readersSince;
      lastWriter, readersSince := RecordWrites(lastWriter, readersSince, ps[b].outputs, b);
      readersSince := RecordReads(readersSince, ps[b].inputs, b);
      LastStep(ps, b, lw0, lastWriter);
      ReaderStep(ps, b, rs0, readersSince);
      b := b + 1;
    }
  }

  // ----- the longest path ---------------------------------------------------------------------

  predicate NonNegative(ps: seq<Phase>) {
    forall a | 0 <= a < |ps| :: ps[a].cost >= 0.0
  }

  /** The greatest value over a set of earlier phases, 0 for none. */
  predicate IsBase(cp: seq<real>, d: set<nat>, base: real)
    requires forall a | a in d :: a < |cp|
  {
    && (forall a | a in d :: cp[a] <= base)
    && (if d == {} then base == 0.0 else exists a :: a in d && cp[a] == base)
  }

  predicate Backward(deps: seq<set<nat>>) {
    forall b, a | 0 <= b < |deps| && a in deps[b] :: a < b
  }

  predicate Longest(ps: seq<Phase>, deps: seq<set<nat>>, cp: seq<real>) {
    && |deps| == |ps| && |cp| <= |ps| && Backward(deps)
    && forall b | 0 <= b < |cp| :: IsBase(cp, deps[b], cp[b] - ps[b].cost)
  }

  method BaseOf(cp: seq<real>, d: set<nat>) returns (base: real)
    requires forall a | a in d :: a < |cp|
    ensures IsBase(cp, d, base)
  {
    base := 0.0;
    if d != {} {
      var first :| first in d;
      base := cp[first];
      var todo := d - {first};
      while todo != {}
        invariant todo <= d
        invariant exists a :: a in d && cp[a] == base
        invariant forall a | a in d && a !in todo :: cp[a] <= base
        decreases |todo|
      {
        var a :| a in todo;
        if cp[a] > base {
          base := cp[a];
        }
        todo := todo - {a};
      }
    }
  }

  lemma LongestExtends(ps: seq<Phase>, deps: seq<set<nat>>, cp: seq<real>, base: real)
    requires |cp| < |ps| && Longest(ps, deps, cp) && IsBase(cp, deps[|cp|], base)
    ensures Longest(ps, deps, cp + [base + ps[|cp|].cost])
  {
    hide IsBase;
    var more := cp + [base + ps[|cp|].cost];
    forall x | 0 <= x < |more|
      ensures IsBase(more, deps[x], more[x] - ps[x].cost)
    {
      BaseGrows(cp, more, deps[x], more[x] - ps[x].cost);
    }
  }

  method LongestPaths(ps: seq<Phase>, deps: seq<set<nat>>) returns (cp: seq<real>)
    requires |deps| == |ps| && Backward(deps)
    ensures |cp| == |ps| && Longest(ps, deps, cp)
  {
    cp := [];
    var b := 0;
    while b < |ps|
      invariant 0 <= b <= |ps| && |cp| == b && Longest(ps, deps, cp)
    {
      var base := BaseOf(cp, deps[b]);
      LongestExtends(ps, deps, cp, base);
      cp := cp + [base + ps[b].cost];
      b := b + 1;
    }
  }

  lemma BaseGrows(cp: seq<real>, more: seq<real>, d: set<nat>, base: real)
    requires cp <= more && (forall a | a in d :: a < |cp|) && IsBase(cp, d, base)
    ensures IsBase(more, d, base)
  {
    if d != {} {
      var a :| a in d && cp[a] == base;
      assert more[a] == base;
    }
  }

  /** A chain of phases, each in conflict with the next. */
  ghost predicate Chain(ps: seq<Phase>, c: seq<nat>) {
    && (forall x | 0 <= x < |c| :: c[x] < |ps|)
    && forall x | 0 < x < |c| :: Conflict(ps, c[x - 1], c[x])
  }

  function Weight(ps: seq<Phase>, c: seq<nat>): real
    requires forall x | 0 <= x < |c| :: c[x] < |ps|
  {
    if c == [] then 0.0 else Weight(ps, c[..|c| - 1]) + ps[c[|c| - 1]].cost
  }

  ghost predicate SparseDeps(ps: seq<Phase>, deps: seq<set<nat>>) {
    |deps| == |ps| && forall b, a :: 0 <= b < |ps| ==> (a in deps[b] <==> Edge(ps, a, b))
  }

  /** Following sparse edges, the longest-path value grows by at least the last cost. */
  lemma {:induction false} PathValue(ps: seq<Phase>, deps: seq<set<nat>>, cp: seq<real>, a: nat, b: nat)
    requires NonNegative(ps) && SparseDeps(ps, deps) && Longest(ps, deps, cp) && |cp| == |ps|
    requires b < |ps| && Path(ps, a, b)
    ensures cp[a] + ps[b].cost <= cp[b]
    decreases b
  {
    assert IsBase(cp, deps[b], cp[b] - ps[b].cost);
    if Edge(ps, a, b) {
      assert a in deps[b];
    } else {
      var z: nat :| z < b && Path(ps, a, z) && Edge(ps, z, b);
      PathValue(ps, deps, cp, a, z);
      assert z in deps[b];
    }
  }

  lemma {:induction false} AtLeastOwnCost(ps: seq<Phase>, deps: seq<set<nat>>, cp: seq<real>, b: nat)
    requires NonNegative(ps) && Longest(ps, deps, cp) && b < |cp|
    ensures ps[b].cost <= cp[b]
    decreases b
  {
    assert IsBase(cp, deps[b], cp[b] - ps[b].cost);
    if deps[b] == {} {
    } else {
      var a :| a in deps[b] && cp[a] == cp[b] - ps[b].cost;
      AtLeastOwnCost(ps, deps, cp, a);
    }
  }

  /** No conflict chain that ends at a phase is heavier than its longest-path value. */
  lemma {:induction false} ChainsBounded(ps: seq<Phase>, deps: seq<set<nat>>, cp: seq<real>, c: seq<nat>)
    requires NonNegative(ps) && SparseDeps(ps, deps) && Longest(ps, deps, cp) && |cp| == |ps|
    requires c != [] && Chain(ps, c)
    ensures Weight(ps, c) <= cp[c[|c| - 1]]
  {
    var k := |c| - 1;
    if k == 0 {
      AtLeastOwnCost(ps, deps, cp, c[0]);
    } else {
      ChainsBounded(ps, deps, cp, c[..k]);
      assert Conflict(ps, c[k - 1], c[k]);
      var buf :| ConflictOn(ps, c[k - 1], c[k], buf);
      ConflictIsPath(ps, c[k - 1], c[k], buf);
      PathValue(ps, deps, cp, c[k - 1], c[k]);
    }
  }

  lemma ChainExtends(ps: seq<Phase>, c: seq<nat>, b: nat)
    requires Chain(ps, c) && b < |ps| && (c != [] ==> Conflict(ps, c[|c| - 1], b))
    ensures Chain(ps, c + [b]) && Weight(ps, c + [b]) == Weight(ps, c) + ps[b].cost
  {
    hide Conflict;
    var d := c + [b];
    assert d[..|d| - 1] == c;
    forall x | 0 < x < |d|
      ensures Conflict(ps, d[x - 1], d[x])
    {
      if x < |c| {
        assert Conflict(ps, c[x - 1], c[x]);
      }
    }
  }

  lemma ChainOfOne(ps: seq<Phase>, b: nat)
    requires b < |ps|
    ensures Chain(ps, [b]) && Weight(ps, [b]) == ps[b].cost
  {
    assert [b][..0] == [];
  }

  /** And some chain weighs exactly that much. */
  lemma {:induction false} ChainAttained(ps: seq<Phase>, deps: seq<set<nat>>, cp: seq<real>, b: nat)
    returns (c: seq<nat>)
    requires SparseDeps(ps, deps) && Longest(ps, deps, cp) && |cp| == |ps| && b < |ps|
    ensures c != [] && Chain(ps, c) && c[|c| - 1] == b && Weight(ps, c) == cp[b]
    decreases b
  {
    hide Conflict, Chain, Weight;
    assert IsBase(cp, deps[b], cp[b] - ps[b].cost);
    if deps[b] == {} {
      ChainOfOne(ps, b);
      c := [b];
    } else {
      var a :| a in deps[b] && cp[a] == cp[b] - ps[b].cost;
      var before := ChainAttained(ps, deps, cp, a);
      EdgeIsConflict(ps, a, b);
      ChainExtends(ps, before, b);
      c := before + [b];
    }
  }

  function TotalCost(ps: seq<Phase>): real {
    if ps == [] then 0.0 else TotalCost(ps[..|ps| - 1]) + ps[|ps| - 1].cost
  }

  lemma {:induction false} PrefixCosts(ps: seq<Phase>, k: nat)
    requires NonNegative(ps) && k <= |ps|
    ensures 0.0 <= TotalCost(ps[..k]) <= TotalCost(ps)
    decreases |ps|
  {
    if k == |ps| {
      assert ps[..k] == ps;
      if k > 0 {
        PrefixCosts(ps[..k - 1], k - 1);
        assert ps[..k - 1][..k - 1] == ps[..k - 1];
      }
    } else {
      PrefixCosts(ps[..|ps| - 1], k);
      assert ps[..|ps| - 1][..k] == ps[..k];
    }
  }

  /** What a chain leaves out is what separates its weight from the serial total. */
  function LeftOut(ps: seq<Phase>, c: seq<nat>, k: nat): real
    requires k <= |ps|
  {
    if k == 0 then 0.0 else LeftOut(ps, c, k - 1) + if k - 1 in c then 0.0 else ps[k - 1].cost
  }

  lemma ChainAscends(ps: seq<Phase>, c: seq<nat>, x: nat, y: nat)
    requires Chain(ps, c) && x < y < |c|
    ensures c[x] < c[y]
    decreases y
  {
    assert Conflict(ps, c[y - 1], c[y]);
    var buf :| ConflictOn(ps, c[y - 1], c[y], buf);
    if x < y - 1 {
      ChainAscends(ps, c, x, y - 1);
    }
  }

  lemma {:induction false} LeftOutSame(ps: seq<Phase>, c: seq<nat>, d: seq<nat>, k: nat)
    requires k <= |ps| && forall i: nat | i < k :: i in c <==> i in d
    ensures LeftOut(ps, c, k) == LeftOut(ps, d, k)
  {
    if k == 0 {
    } else {
      LeftOutSame(ps, c, d, k - 1);
    }
  }

  lemma ChainPrefix(ps: seq<Phase>, c: seq<nat>)
    requires Chain(ps, c) && c != []
    ensures Chain(ps, c[..|c| - 1])
  {
    hide Conflict;
    var d := c[..|c| - 1];
    forall x | 0 < x < |d|
      ensures Conflict(ps, d[x - 1], d[x])
    {
      assert Conflict(ps, c[x - 1], c[x]);
    }
  }

  /** Conservation: a chain below phase `k` and what it leaves out add up to the serial cost. */
  lemma {:induction false} ChainAndRest(ps: seq<Phase>, c: seq<nat>, k: nat)
    requires Chain(ps, c) && k <= |ps| && forall x | 0 <= x < |c| :: c[x] < k
    ensures Weight(ps, c) + LeftOut(ps, c, k) == TotalCost(ps[..k])
    decreases k
  {
    if c == [] {
      if k > 0 {
        assert ps[..k][..k - 1] == ps[..k - 1];
        ChainAndRest(ps, c, k - 1);
      }
    } else {
      var n := |c| - 1;
      assert c[n] < k;
      assert ps[..k][..k - 1] == ps[..k - 1];
      forall x | 0 <= x < n
        ensures c[x] < c[n]
      {
        ChainAscends(ps, c, x, n);
      }
      if c[n] == k - 1 {
        ChainPrefix(ps, c);
        ChainAndRest(ps, c[..n], k - 1);
        assert c == c[..n] + [k - 1];
        LeftOutSame(ps, c, c[..n], k - 1);
      } else {
        ChainAndRest(ps, c, k - 1);
      }
    }
  }

  lemma {:induction false} LeftOutSign(ps: seq<Phase>, c: seq<nat>, k: nat)
    requires NonNegative(ps) && k <= |ps|
    ensures LeftOut(ps, c, k) >= 0.0
    ensures LeftOut(ps, c, k) == 0.0 <==> forall i: nat | i < k && ps[i].cost > 0.0 :: i in c
  {
    if k == 0 {
    } else {
      LeftOutSign(ps, c, k - 1);
    }
  }

  /** A chain weighs at most the serial total, and exactly that when every phase that costs
      anything is on it: there is nothing to overlap. */
  lemma ChainWeight(ps: seq<Phase>, c: seq<nat>)
    requires NonNegative(ps) && Chain(ps, c)
    ensures Weight(ps, c) <= TotalCost(ps)
    ensures Weight(ps, c) == TotalCost(ps) <==> forall i: nat | i < |ps| && ps[i].cost > 0.0 :: i in c
  {
    assert ps[..|ps|] == ps;
    ChainAndRest(ps, c, |ps|);
    LeftOutSign(ps, c, |ps|);
  }

  /** Dropping edges can only shorten the path: the read-after-write ceiling is optimistic. */
  lemma {:induction false} FewerEdges(ps: seq<Phase>, deps: seq<set<nat>>, fewer: seq<set<nat>>, cp: seq<real>,
                                      less: seq<real>, b: nat)
    requires NonNegative(ps) && Longest(ps, deps, cp) && Longest(ps, fewer, less) && b < |cp| == |less| == |ps|
    requires forall x | 0 <= x < |ps| :: fewer[x] <= deps[x]
    ensures less[b] <= cp[b]
    decreases b
  {
    assert IsBase(cp, deps[b], cp[b] - ps[b].cost) && IsBase(less, fewer[b], less[b] - ps[b].cost);
    AtLeastOwnCost(ps, deps, cp, b);
    if fewer[b] == {} {
    } else {
      var a :| a in fewer[b] && less[a] == less[b] - ps[b].cost;
      FewerEdges(ps, deps, fewer, cp, less, a);
    }
  }

  predicate RawOn(ps: seq<Phase>, a: nat, b: nat, buf: nat) {
    LastWriter(ps, b, buf, a) && Reads(ps, b, buf)
  }

  /** The last writer alone, for what a phase reads. */
  method RawEdges(ps: seq<Phase>) returns (raw: seq<set<nat>>)
    ensures |raw| == |ps|
    ensures forall b, a :: 0 <= b < |ps| ==> (a in raw[b] <==> exists buf :: RawOn(ps, a, b, buf))
  {
    raw := [];
    var lw: map<nat, nat> := map[];
    var b := 0;
    while b < |ps|
      invariant 0 <= b <= |ps| && |raw| == b
      invariant LastIndex(ps, b, lw)
      invariant forall x, a :: 0 <= x < b ==> (a in raw[x] <==> exists buf :: RawOn(ps, a, x, buf))
    {
      var d := ReadEdges(lw, ps[b].inputs);
      forall a
        ensures a in d <==> exists buf :: RawOn(ps, a, b, buf)
      {
        if a in d {
          var buf :| buf in ps[b].inputs && IsLast(lw, buf, a);
          assert RawOn(ps, a, b, buf);
        }
        if buf :| RawOn(ps, a, b, buf) {
          assert IsLast(lw, buf, a);
        }
      }
      raw := raw + [d];
      ghost var was := lw;
      var unread;
      lw, unread := RecordWrites(lw, map[], ps[b].outputs, b);
      LastStep(ps, b, was, lw);
      b := b + 1;
    }
  }

  /** The critical path is the weight of the heaviest conflict chain. */
  ghost predicate Heaviest(ps: seq<Phase>, critical: real) {
    && (forall c | Chain(ps, c) :: Weight(ps, c) <= critical)
    && exists c :: Chain(ps, c) && Weight(ps, c) == critical
  }

  predicate IsMax(values: seq<real>, best: real) {
    if values == [] then best == 0.0 else best in values && forall x | 0 <= x < |values| :: values[x] <= best
  }

  method MaxOf(values: seq<real>) returns (best: real)
    ensures IsMax(values, best)
  {
    best := 0.0;
    if values != [] {
      best := values[0];
      var k := 1;
      while k < |values|
        invariant 1 <= k <= |values|
        invariant best in values && forall x | 0 <= x < k :: values[x] <= best
      {
        if values[k] > best {
          best := values[k];
        }
        k := k + 1;
      }
    }
  }

  lemma CriticalIsHeaviest(ps: seq<Phase>, deps: seq<set<nat>>, cp: seq<real>, critical: real)
    requires NonNegative(ps) && SparseDeps(ps, deps) && Longest(ps, deps, cp) && |cp| == |ps| && IsMax(cp, critical)
    ensures Heaviest(ps, critical)
  {
    forall c | Chain(ps, c)
      ensures Weight(ps, c) <= critical
    {
      if c != [] {
        ChainsBounded(ps, deps, cp, c);
      } else if cp != [] {
        AtLeastOwnCost(ps, deps, cp, 0);
      }
    }
    if ps == [] {
      assert Chain(ps, []) && Weight(ps, []) == critical;
    } else {
      var b :| 0 <= b < |cp| && cp[b] == critical;
      var c := ChainAttained(ps, deps, cp, b);
    }
  }

  /** Overlap cannot beat the critical path, nor cost more than running serially; and the two
      are equal exactly when one chain holds every phase that costs anything. */
  lemma NothingToOverlap(ps: seq<Phase>, critical: real)
    requires NonNegative(ps) && Heaviest(ps, critical)
    ensures critical <= TotalCost(ps)
    ensures critical == TotalCost(ps) <==> exists c :: Chain(ps, c) && forall i: nat | i < |ps| && ps[i].cost > 0.0 ::
        i in c
  {
    var best :| Chain(ps, best) && Weight(ps, best) == critical;
    ChainWeight(ps, best);
    if c :| Chain(ps, c) && forall i: nat | i < |ps| && ps[i].cost > 0.0 :: i in c {
      ChainWeight(ps, c);
    }
  }

  lemma OptimisticBelow(ps: seq<Phase>, deps: seq<set<nat>>, raw: seq<set<nat>>, cp: seq<real>, cpr: seq<real>,
                        critical: real, optimistic: real)
    requires NonNegative(ps) && Longest(ps, deps, cp) && Longest(ps, raw, cpr) && |cp| == |cpr| == |ps|
    requires IsMax(cp, critical) && IsMax(cpr, optimistic)
    requires forall x | 0 <= x < |ps| :: raw[x] <= deps[x]
    ensures optimistic <= critical
  {
    if ps != [] {
      var x :| 0 <= x < |cpr| && cpr[x] == optimistic;
      FewerEdges(ps, deps, raw, cp, cpr, x);
    }
  }

  method Ceiling(ps: seq<Phase>) returns (critical: real, optimistic: real)
    requires NonNegative(ps)
    ensures Heaviest(ps, critical) && optimistic <= critical <= TotalCost(ps)
  {
    hide Longest, LastWriter;
    var deps := BuildEdges(ps);
    assert Backward(deps) by {
      forall b, a | 0 <= b < |ps| && a in deps[b]
        ensures a < b
      {
        EdgeIsConflict(ps, a, b);
      }
    }
    var cp := LongestPaths(ps, deps);
    critical := MaxOf(cp);
    CriticalIsHeaviest(ps, deps, cp, critical);
    var raw := RawEdges(ps);
    forall b, a | 0 <= b < |ps| && a in raw[b]
      ensures a in deps[b]
    {
      var buf :| RawOn(ps, a, b, buf);
      assert EdgeOn(ps, a, b, buf);
    }
    assert Backward(raw) by {
      forall b, a | 0 <= b < |ps| && a in raw[b]
        ensures a < b
      {
        assert a in deps[b];
      }
    }
    var cpr := LongestPaths(ps, raw);
    optimistic := MaxOf(cpr);
    OptimisticBelow(ps, deps, raw, cp, cpr, critical, optimistic);
    NothingToOverlap(ps, critical);
  }
}
