/** The cross-workgroup barrier and its device-scope fences, run by any closed client whose accesses
    between two barriers are race free. Plain accesses go through per-workgroup caches; every read
    must see what a sequential run of the client would read. */
module Barrier {
  /** The phase word is 32 bits wide. */
  const WORD := 0x1_0000_0000

  // ----- clients ---------------------------------------------------------------------------------------

  datatype Access = Put(c: nat, v: int) | Look(c: nat)

  /** `n` workgroups call the barrier `calls` times over `cells` shared cells; `code(g, t)` is what
      workgroup `g` does between its calls `t - 1` and `t`. */
  datatype Client = Client(n: nat, cells: nat, calls: nat, code: (nat, nat) -> seq<Access>)

  predicate PutsTo(accesses: seq<Access>, c: nat) {
    exists x | 0 <= x < |accesses| :: accesses[x].Put? && accesses[x].c == c
  }

  predicate Touches(accesses: seq<Access>, c: nat) {
    exists x | 0 <= x < |accesses| :: accesses[x].c == c
  }

  /** What one workgroup writes between two barriers no other one touches there. */
  ghost predicate RaceFree(cl: Client) {
    forall t, g, h, c {:trigger PutsTo(cl.code(g, t), c), Touches(cl.code(h, t), c)}
      | 0 <= g < cl.n && 0 <= h < cl.n && g != h && PutsTo(cl.code(g, t), c) :: !Touches(cl.code(h, t), c)
  }

  ghost predicate InBounds(cl: Client) {
    forall g, t, x {:trigger cl.code(g, t)[x]} | 0 <= x < |cl.code(g, t)| :: cl.code(g, t)[x].c < cl.cells
  }

  ghost predicate ClientOk(cl: Client) {
    0 < cl.n < WORD && RaceFree(cl) && InBounds(cl)
  }

  /** The value of a cell behind some accesses. */
  function Value(accesses: seq<Access>, c: nat, before: int): int {
    if accesses == [] then before
    else
      var k := |accesses| - 1;
      if accesses[k].Put? && accesses[k].c == c then accesses[k].v else Value(accesses[..k], c, before)
  }

  /** A sequential run: generation after generation, the workgroups one after the other. */
  function Start(cl: Client, t: nat, c: nat): int
    decreases t, 0
  {
    if t == 0 then 0 else Through(cl, t - 1, c, cl.n)
  }

  function Through(cl: Client, t: nat, c: nat, upTo: nat): int
    decreases t, 1, upTo
  {
    if upTo == 0 then Start(cl, t, c) else Value(cl.code(upTo - 1, t), c, Through(cl, t, c, upTo - 1))
  }

  /** What access `i` of workgroup `g` in generation `t` has to read. */
  function Latest(cl: Client, g: nat, t: nat, i: nat, c: nat): int
    requires i <= |cl.code(g, t)|
  {
    Value(cl.code(g, t)[..i], c, Start(cl, t, c))
  }

  lemma {:induction false} NoPut(accesses: seq<Access>, c: nat, before: int)
    requires !PutsTo(accesses, c)
    ensures Value(accesses, c, before) == before
  {
    if accesses == [] {
    } else {
      var k := |accesses| - 1;
      assert !(accesses[k].Put? && accesses[k].c == c);
      if PutsTo(accesses[..k], c) {
        PutsWithin(accesses, k, c);
      }
      NoPut(accesses[..k], c, before);
    }
  }

  /** In a race-free generation the one writer decides, whatever the order. */
  lemma {:induction false} OneWriter(cl: Client, t: nat, c: nat, w: nat, upTo: nat)
    requires RaceFree(cl) && w < cl.n && PutsTo(cl.code(w, t), c) && upTo <= cl.n
    ensures Through(cl, t, c, upTo) == if w < upTo then Value(cl.code(w, t), c, Start(cl, t, c)) else Start(cl, t, c)
    decreases upTo
  {
    if upTo == 0 {
    } else {
      OneWriter(cl, t, c, w, upTo - 1);
      if upTo - 1 != w {
        OtherSilent(cl, t, c, w, upTo - 1);
        NoPut(cl.code(upTo - 1, t), c, Through(cl, t, c, upTo - 1));
      }
    }
  }

  lemma OtherSilent(cl: Client, t: nat, c: nat, w: nat, h: nat)
    requires RaceFree(cl) && w < cl.n && h < cl.n && w != h && PutsTo(cl.code(w, t), c)
    ensures !PutsTo(cl.code(h, t), c) && !Touches(cl.code(h, t), c)
  {
    assert !Touches(cl.code(h, t), c);
  }

  lemma {:induction false} NoWriter(cl: Client, t: nat, c: nat, upTo: nat)
    requires upTo <= cl.n && forall g | 0 <= g < cl.n :: !PutsTo(cl.code(g, t), c)
    ensures Through(cl, t, c, upTo) == Start(cl, t, c)
    decreases upTo
  {
    if upTo == 0 {
    } else {
      NoWriter(cl, t, c, upTo - 1);
      NoPut(cl.code(upTo - 1, t), c, Through(cl, t, c, upTo - 1));
    }
  }

  // ----- steps -------------------------------------------------------------------------------------------

  /** Where a workgroup's leader thread stands: at access `i` of its code, or in the barrier. */
  datatype Pc = Run(i: nat) | Release | ReadPhase | Arrive(ph: nat) | Reset | Bump | Spin(ph: nat) | Acquire | Done

  datatype Line = Line(value: int, dirty: bool)

  /** `count` and `phase` are the two barrier words; `gen[g]` counts the barrier calls that
      workgroup `g` has completed, `bumps` the phase changes so far, `bad` the stale reads. */
  datatype State = State(pc: seq<Pc>, gen: seq<nat>, count: nat, phase: nat, bumps: nat,
                         main: seq<int>, cache: seq<map<nat, Line>>, bad: nat)

  /** A workgroup moves, or a cache writes back, drops or fetches a line on its own. */
  datatype Action = Move(g: nat) | WriteBack(g: nat, c: nat) | Evict(g: nat, c: nat) | Fetch(g: nat, c: nat)

  predicate Shape(cl: Client, s: State) {
    cl.n > 0 && |s.pc| == |s.gen| == |s.cache| == cl.n && |s.main| == cl.cells
  }

  function Init(cl: Client): State {
    State(seq(cl.n, g => if cl.calls == 0 then Done else Run(0)), seq(cl.n, g => 0), 0, 0, 0, seq(cl.cells, c => 0),
        seq(cl.n, g => map[]), 0)
  }

  predicate Enabled(cl: Client, s: State, a: Action)
    requires Shape(cl, s)
  {
    match a
    case Move(g) => g < cl.n && s.pc[g] != Done
    case WriteBack(g, c) => g < cl.n && c < cl.cells && c in s.cache[g] && s.cache[g][c].dirty
    case Evict(g, c) => g < cl.n && c < cl.cells && c in s.cache[g] && !s.cache[g][c].dirty
    case Fetch(g, c) => g < cl.n && c < cl.cells && c !in s.cache[g]
  }

  /** What a plain read by `g` returns. */
  function Seen(cl: Client, s: State, g: nat, c: nat): int
    requires Shape(cl, s) && g < cl.n && c < cl.cells
  {
    if c in s.cache[g] then s.cache[g][c].value else s.main[c]
  }

  /** Memory after all dirty lines of `g` are written back. */
  function Flushed(cl: Client, s: State, g: nat): (main: seq<int>)
    requires Shape(cl, s) && g < cl.n
    ensures |main| == cl.cells
    ensures forall c | 0 <= c < cl.cells ::
        main[c] == if c in s.cache[g] && s.cache[g][c].dirty then s.cache[g][c].value else s.main[c]
  {
    seq(cl.cells, c requires 0 <= c < cl.cells =>
        if c in s.cache[g] && s.cache[g][c].dirty then s.cache[g][c].value else s.main[c])
  }

  function Kept(cache: map<nat, Line>, c: nat, line: Line): map<nat, Line> {
    cache[c := line]
  }

  function Cleaned(cache: map<nat, Line>): map<nat, Line> {
    map c | c in cache :: cache[c].(dirty := false)
  }

  function DirtyOnly(cache: map<nat, Line>): map<nat, Line> {
    map c | c in cache && cache[c].dirty :: cache[c]
  }

  /** One access of the client, or its next barrier call. */
  function ClientStep(cl: Client, s: State, g: nat, i: nat): State
    requires Shape(cl, s) && g < cl.n
  {
    var code := cl.code(g, s.gen[g]);
    if i >= |code| then s.(pc := s.pc[g := Release])
    else
      match code[i]
      case Put(c, v) => s.(pc := s.pc[g := Run(i + 1)], cache := s.cache[g := Kept(s.cache[g], c, Line(v, true))])
      case Look(c) =>
        var stale := c < cl.cells && Seen(cl, s, g, c) != Latest(cl, g, s.gen[g], i, c);
        s.(pc := s.pc[g := Run(i + 1)], bad := if stale then s.bad + 1 else s.bad)
  }

  /** One step of workgroup `g`. */
  function Step(cl: Client, s: State, g: nat): State
    requires Shape(cl, s) && g < cl.n
  {
    match s.pc[g]
    case Run(i) => ClientStep(cl, s, g, i)
    case Release => s.(pc := s.pc[g := ReadPhase], main := Flushed(cl, s, g),
      cache := s.cache[g := Cleaned(s.cache[g])])
    case ReadPhase => s.(pc := s.pc[g := Arrive(s.phase)])
    case Arrive(ph) => s.(pc := s.pc[g := if s.count == cl.n - 1 then Reset else Spin(ph)],
      count := (s.count + 1) % WORD)
    case Reset => s.(pc := s.pc[g := Bump], count := 0)
    case Bump => s.(pc := s.pc[g := Acquire], phase := (s.phase + 1) % WORD, bumps := s.bumps + 1)
    case Spin(ph) => if s.phase == ph then s else s.(pc := s.pc[g := Acquire])
    case Acquire => s.(pc := s.pc[g := if s.gen[g] + 1 < cl.calls then Run(0) else Done],
      gen := s.gen[g := s.gen[g] + 1],
                       cache := s.cache[g := DirtyOnly(s.cache[g])])
    case Done => s
  }

  function Do(cl: Client, s: State, a: Action): State
    requires Shape(cl, s) && Enabled(cl, s, a)
  {
    match a
    case Move(g) => Step(cl, s, g)
    case WriteBack(g, c) => s.(main := s.main[c := s.cache[g][c].value],
      cache := s.cache[g := Kept(s.cache[g], c, s.cache[g][c].(dirty := false))])
    case Evict(g, c) => s.(cache := s.cache[g := s.cache[g] - {c}])
    case Fetch(g, c) => s.(cache := s.cache[g := Kept(s.cache[g], c, Line(s.main[c], false))])
  }

  // ----- the barrier words ------------------------------------------------------------------------

  /** Arrived in the current generation and waiting. */
  predicate Waits(s: State, g: nat)
    requires g < |s.pc| && |s.gen| == |s.pc|
  {
    s.pc[g].Spin? && s.gen[g] == s.bumps
  }

  function Waiting(s: State): set<nat>
    requires |s.gen| == |s.pc|
  {
    set g: nat | g < |s.pc| && Waits(s, g)
  }

  /** How a workgroup's position fits the number of phase changes. */
  predicate PlaceOk(cl: Client, s: State, g: nat)
    requires g < |s.pc| && |s.gen| == |s.pc|
  {
    match s.pc[g]
    case Run(i) => s.gen[g] == s.bumps < cl.calls && i <= |cl.code(g, s.gen[g])|
    case Spin(ph) => (s.gen[g] == s.bumps || s.gen[g] + 1 == s.bumps) && ph == s.gen[g] % WORD && s.gen[g] < cl.calls
    case Acquire => s.gen[g] + 1 == s.bumps && s.gen[g] < cl.calls
    case Arrive(ph) => s.gen[g] == s.bumps && ph == s.gen[g] % WORD && s.gen[g] < cl.calls
    case Done => s.gen[g] == s.bumps == cl.calls
    case _ => s.gen[g] == s.bumps < cl.calls
  }

  predicate Leader(s: State, g: nat)
    requires g < |s.pc|
  {
    s.pc[g] == Reset || s.pc[g] == Bump
  }

  /** The arrival counter is exact, except between the last arrival and the phase change, when
      everyone else is waiting. */
  ghost predicate WordsOk(cl: Client, s: State)
    requires Shape(cl, s)
  {
    && s.phase == s.bumps % WORD
    && (forall g | 0 <= g < cl.n :: PlaceOk(cl, s, g))
    && (forall g | 0 <= g < cl.n && Leader(s, g) ::
      AllOthersWait(cl, s, g) && s.count == if s.pc[g] == Reset then cl.n else 0)
    && ((forall g | 0 <= g < cl.n :: !Leader(s, g)) ==> s.count == |Waiting(s)| < cl.n)
  }

  predicate AllOthersWait(cl: Client, s: State, g: nat)
    requires Shape(cl, s)
  {
    forall h | 0 <= h < cl.n && h != g :: Waits(s, h)
  }

  // ----- the caches ---------------------------------------------------------------------------------

  predicate IsDirty(s: State, g: nat, c: nat)
    requires g < |s.cache|
  {
    c in s.cache[g] && s.cache[g][c].dirty
  }

  /** What workgroup `g` has done of its code since its last barrier call. */
  function Behind(cl: Client, s: State, g: nat): seq<Access>
    requires g < |s.pc| && |s.gen| == |s.pc|
  {
    var code := cl.code(g, s.gen[g]);
    match s.pc[g]
    case Run(i) => if i <= |code| then code[..i] else code
    case Done => []
    case _ => code
  }

  /** Running its code, or about to release what it has written. */
  predicate Working(s: State, g: nat)
    requires g < |s.pc|
  {
    s.pc[g].Run? || s.pc[g] == Release
  }

  predicate Foreign(cl: Client, g: nat, t: nat, c: nat) {
    exists h | 0 <= h < cl.n && h != g :: PutsTo(cl.code(h, t), c)
  }

  /** Lines are dirty only from their write to the release; a copy of a cell that nobody else
      writes in this generation is up to date. */
  predicate CacheOk(cl: Client, s: State, g: nat, c: nat)
    requires Shape(cl, s) && g < cl.n
  {
    && (IsDirty(s, g, c) ==> Working(s, g) && PutsTo(Behind(cl, s, g), c))
    && (Working(s, g) && c in s.cache[g] && !Foreign(cl, g, s.gen[g], c) ==>
          s.cache[g][c].value == Value(Behind(cl, s, g), c, Start(cl, s.gen[g], c)))
  }

  /** Workgroup `g` has written the cell in the current generation. */
  predicate HasPut(cl: Client, s: State, g: nat, c: nat)
    requires g < |s.pc| && |s.gen| == |s.pc|
  {
    s.gen[g] == s.bumps && PutsTo(Behind(cl, s, g), c)
  }

  /** Memory holds the last write of this generation, unless that is still dirty, or what was there
      at its start. */
  ghost predicate MainOk(cl: Client, s: State, c: nat)
    requires Shape(cl, s) && c < cl.cells
  {
    && (forall w | 0 <= w < cl.n && HasPut(cl, s, w, c) && !IsDirty(s, w, c) ::
          s.main[c] == Value(Behind(cl, s, w), c, Start(cl, s.bumps, c)))
    && ((forall w | 0 <= w < cl.n :: !HasPut(cl, s, w, c)) ==> s.main[c] == Start(cl, s.bumps, c))
  }

  ghost predicate MemoryOk(cl: Client, s: State)
    requires Shape(cl, s)
  {
    && (forall g, c: nat {:trigger CacheOk(cl, s, g, c)} | 0 <= g < cl.n && c < cl.cells :: CacheOk(cl, s, g, c))
    && (forall c: nat {:trigger MainOk(cl, s, c)} | c < cl.cells :: MainOk(cl, s, c))
    && s.bad == 0
  }

  ghost predicate Inv(cl: Client, s: State) {
    Shape(cl, s) && ClientOk(cl) && WordsOk(cl, s) && MemoryOk(cl, s)
  }

  lemma InitInv(cl: Client)
    requires ClientOk(cl)
    ensures Inv(cl, Init(cl))
  {
    hide RaceFree, InBounds;
    var s := Init(cl);
    assert Waiting(s) == {};
    assert forall g | 0 <= g < cl.n :: PlaceOk(cl, s, g) && !Leader(s, g);
    forall g, c: nat | 0 <= g < cl.n && c < cl.cells
      ensures CacheOk(cl, s, g, c)
    {
    }
    forall c: nat | c < cl.cells
      ensures MainOk(cl, s, c)
    {
      forall w | 0 <= w < cl.n
        ensures !HasPut(cl, s, w, c)
      {
        assert Behind(cl, s, w) == [];
      }
    }
  }

  // ----- the barrier words are kept -----------------------------------------------------------------

  lemma {:induction false} AllBelow(n: nat) returns (all: set<nat>)
    ensures |all| == n && forall g: nat :: g in all <==> g < n
  {
    if n == 0 {
      all := {};
    } else {
      var rest := AllBelow(n - 1);
      all := rest + {n - 1};
    }
  }

  lemma Subset(a: set<nat>, b: set<nat>)
    requires a <= b
    ensures |a| <= |b|
    ensures |a| == |b| ==> a == b
  {
    assert b == a + (b - a);
  }

  /** When `n - 1` workgroups wait and `g` is not among them, everyone else waits. */
  lemma LastArrival(cl: Client, s: State, g: nat)
    requires Shape(cl, s) && g < cl.n && !Waits(s, g) && |Waiting(s)| == cl.n - 1
    ensures AllOthersWait(cl, s, g)
  {
    var all := AllBelow(cl.n);
    Subset(Waiting(s), all - {g});
    forall h: nat | h < cl.n && h != g
      ensures Waits(s, h)
    {
      assert h in all - {g};
    }
  }

  lemma NoLeader(cl: Client, s: State, g: nat)
    requires Shape(cl, s) && WordsOk(cl, s) && g < cl.n && !Leader(s, g) && !Waits(s, g)
    ensures forall h | 0 <= h < cl.n :: !Leader(s, h)
  {
  }

  /** Steps that neither wait nor lead leave the waiting set and the counter alone. */
  lemma QuietStep(cl: Client, s: State, s': State, g: nat)
    requires Shape(cl, s) && Shape(cl, s') && WordsOk(cl, s) && g < cl.n
    requires s'.count == s.count && s'.phase == s.phase && s'.bumps == s.bumps
    requires forall h | 0 <= h < cl.n && h != g :: s'.pc[h] == s.pc[h] && s'.gen[h] == s.gen[h]
    requires !Leader(s, g) && !Leader(s', g) && !Waits(s, g) && !Waits(s', g) && PlaceOk(cl, s', g)
    ensures WordsOk(cl, s')
  {
    NoLeader(cl, s, g);
    assert Waiting(s') == Waiting(s) by {
      forall h: nat | h < cl.n
        ensures Waits(s', h) == Waits(s, h)
      {
      }
    }
    forall h | 0 <= h < cl.n
      ensures PlaceOk(cl, s', h) && !Leader(s', h)
    {
      assert PlaceOk(cl, s, h);
    }
  }

  lemma WordsStay(cl: Client, s: State, s': State)
    requires Shape(cl, s) && Shape(cl, s') && WordsOk(cl, s)
    requires s'.count == s.count && s'.phase == s.phase && s'.bumps == s.bumps && s'.pc == s.pc && s'.gen == s.gen
    ensures WordsOk(cl, s')
  {
    assert Waiting(s') == Waiting(s) by {
      forall h: nat | h < cl.n
        ensures Waits(s', h) == Waits(s, h)
      {
      }
    }
    forall h | 0 <= h < cl.n
      ensures PlaceOk(cl, s', h) && Leader(s', h) == Leader(s, h)
      ensures AllOthersWait(cl, s, h) ==> AllOthersWait(cl, s', h)
    {
      assert PlaceOk(cl, s, h);
      if AllOthersWait(cl, s, h) {
        forall i | 0 <= i < cl.n && i != h
          ensures Waits(s', i)
        {
          assert Waits(s, i);
        }
      }
    }
  }

  lemma ArriveCounted(cl: Client, s: State, g: nat)
    requires Shape(cl, s) && cl.n < WORD && WordsOk(cl, s) && g < cl.n && s.pc[g].Arrive?
    ensures s.count == |Waiting(s)| < cl.n && !Waits(s, g)
    ensures forall h | 0 <= h < cl.n :: !Leader(s, h) && PlaceOk(cl, s, h)
    ensures PlaceOk(cl, Step(cl, s, g), g)
  {
    assert PlaceOk(cl, s, g);
    NoLeader(cl, s, g);
  }

  lemma LastArrives(cl: Client, s: State, g: nat)
    requires Shape(cl, s) && cl.n < WORD && WordsOk(cl, s) && g < cl.n && s.pc[g].Arrive? && s.count == cl.n - 1
    ensures WordsOk(cl, Step(cl, s, g))
  {
    var s' := Step(cl, s, g);
    ArriveCounted(cl, s, g);
    LastArrival(cl, s, g);
    forall h | 0 <= h < cl.n && h != g
      ensures Waits(s', h) && !Leader(s', h) && PlaceOk(cl, s', h)
    {
      assert Waits(s, h) && PlaceOk(cl, s, h);
    }
    assert AllOthersWait(cl, s', g) && Leader(s', g);
  }

  lemma OneArrives(cl: Client, s: State, g: nat)
    requires Shape(cl, s) && cl.n < WORD && WordsOk(cl, s) && g < cl.n && s.pc[g].Arrive? && s.count != cl.n - 1
    ensures WordsOk(cl, Step(cl, s, g))
  {
    hide Cleaned;
    var s' := Step(cl, s, g);
    ArriveCounted(cl, s, g);
    forall h | 0 <= h < cl.n
      ensures PlaceOk(cl, s', h) && !Leader(s', h)
      ensures h != g ==> Waits(s', h) == Waits(s, h)
    {
      assert PlaceOk(cl, s, h);
    }
    assert Waiting(s') == Waiting(s) + {g};
  }

  lemma ResetKeepsWords(cl: Client, s: State, g: nat)
    requires Shape(cl, s) && WordsOk(cl, s) && g < cl.n && s.pc[g] == Reset
    ensures WordsOk(cl, Step(cl, s, g))
  {
    var s' := Step(cl, s, g);
    assert Leader(s, g) && AllOthersWait(cl, s, g);
    forall h | 0 <= h < cl.n
      ensures PlaceOk(cl, s', h)
      ensures h != g ==> Waits(s', h) && !Leader(s', h)
    {
      assert PlaceOk(cl, s, h) && (h != g ==> Waits(s, h));
    }
    assert Leader(s', g) && AllOthersWait(cl, s', g);
  }

  lemma PhaseMoves(b: nat)
    ensures (b % WORD + 1) % WORD == (b + 1) % WORD
    ensures (b + 1) % WORD != b % WORD
  {
  }

  lemma BumpKeepsWords(cl: Client, s: State, g: nat)
    requires Shape(cl, s) && WordsOk(cl, s) && g < cl.n && s.pc[g] == Bump
    ensures WordsOk(cl, Step(cl, s, g))
  {
    var s' := Step(cl, s, g);
    PhaseMoves(s.bumps);
    assert Leader(s, g) && AllOthersWait(cl, s, g);
    forall h | 0 <= h < cl.n
      ensures PlaceOk(cl, s', h) && !Leader(s', h) && !Waits(s', h)
    {
      assert PlaceOk(cl, s, h) && (h != g ==> Waits(s, h));
    }
    assert Waiting(s') == {};
  }

  lemma LeaveKeepsWords(cl: Client, s: State, g: nat)
    requires Shape(cl, s) && WordsOk(cl, s) && g < cl.n
    requires (s.pc[g] == Acquire || (s.pc[g].Spin? && s.pc[g].ph != s.phase))
    ensures WordsOk(cl, Step(cl, s, g))
  {
    assert PlaceOk(cl, s, g);
    QuietStep(cl, s, Step(cl, s, g), g);
  }

  lemma MoveKeepsWords(cl: Client, s: State, g: nat)
    requires Shape(cl, s) && cl.n < WORD && WordsOk(cl, s) && g < cl.n
    ensures Shape(cl, Step(cl, s, g)) && WordsOk(cl, Step(cl, s, g))
  {
    hide DirtyOnly, Kept, Seen, Latest;
    assert PlaceOk(cl, s, g);
    match s.pc[g] {
      case Arrive(_) =>
        if s.count == cl.n - 1 {
          LastArrives(cl, s, g);
        } else {
          OneArrives(cl, s, g);
        }
      case Reset => ResetKeepsWords(cl, s, g);
      case Bump => BumpKeepsWords(cl, s, g);
      case Spin(ph) =>
        if ph != s.phase {
          LeaveKeepsWords(cl, s, g);
        }
      case Acquire => LeaveKeepsWords(cl, s, g);
      case Done =>
      case _ => QuietStep(cl, s, Step(cl, s, g), g);
    }
  }

  // ----- the caches are kept ------------------------------------------------------------------------

  lemma PutsWithin(accesses: seq<Access>, i: nat, c: nat)
    requires i <= |accesses| && PutsTo(accesses[..i], c)
    ensures PutsTo(accesses, c)
  {
    var x :| 0 <= x < i && accesses[..i][x].Put? && accesses[..i][x].c == c;
    assert accesses[x].Put? && accesses[x].c == c;
  }

  lemma PutsTouch(accesses: seq<Access>, c: nat)
    requires PutsTo(accesses, c)
    ensures Touches(accesses, c)
  {
  }

  lemma BehindPuts(cl: Client, s: State, g: nat, c: nat)
    requires Shape(cl, s) && g < cl.n && PutsTo(Behind(cl, s, g), c)
    ensures PutsTo(cl.code(g, s.gen[g]), c)
  {
    hide PutsTo;
    var code := cl.code(g, s.gen[g]);
    match s.pc[g] {
      case Run(i) =>
        if i <= |code| {
          PutsWithin(code, i, c);
        }
      case Done => NothingPut(c);
      case _ =>
    }
  }

  lemma NothingPut(c: nat)
    ensures !PutsTo([], c)
  {
  }

  /** A cell that a workgroup touches in the current generation no other one has written there. */
  lemma Alone(cl: Client, s: State, g: nat, c: nat)
    requires Shape(cl, s) && ClientOk(cl) && g < cl.n && s.gen[g] == s.bumps && Touches(cl.code(g, s.gen[g]), c)
    ensures !Foreign(cl, g, s.gen[g], c) && forall w | 0 <= w < cl.n && w != g :: !HasPut(cl, s, w, c)
  {
    hide PutsTo, Touches, InBounds, Behind;
    forall h | 0 <= h < cl.n && h != g
      ensures !PutsTo(cl.code(h, s.gen[g]), c)
    {
      if PutsTo(cl.code(h, s.gen[g]), c) {
        OtherSilent(cl, s.gen[g], c, h, g);
      }
    }
    forall w | 0 <= w < cl.n && w != g
      ensures !HasPut(cl, s, w, c)
    {
      if HasPut(cl, s, w, c) {
        BehindPuts(cl, s, w, c);
      }
    }
  }

  lemma WriterAlone(cl: Client, s: State, g: nat, c: nat)
    requires Shape(cl, s) && ClientOk(cl) && g < cl.n && HasPut(cl, s, g, c)
    ensures !Foreign(cl, g, s.gen[g], c) && forall w | 0 <= w < cl.n && w != g :: !HasPut(cl, s, w, c)
  {
    hide PutsTo, Touches, ClientOk, Foreign;
    BehindPuts(cl, s, g, c);
    PutsTouch(cl.code(g, s.gen[g]), c);
    Alone(cl, s, g, c);
  }

  /** A dirty line holds the value that its workgroup last wrote. */
  lemma DirtyIsLatest(cl: Client, s: State, g: nat, c: nat)
    requires Inv(cl, s) && g < cl.n && c < cl.cells && IsDirty(s, g, c)
    ensures Working(s, g) && HasPut(cl, s, g, c)
    ensures s.cache[g][c].value == Value(Behind(cl, s, g), c, Start(cl, s.bumps, c))
    ensures forall w | 0 <= w < cl.n && w != g :: !HasPut(cl, s, w, c)
  {
    hide Behind, PutsTo, Foreign, ClientOk, Value, Start, MainOk;
    assert CacheOk(cl, s, g, c) && PlaceOk(cl, s, g);
    WriterAlone(cl, s, g, c);
  }

  /** What a working workgroup reads of a cell that nobody else writes. */
  lemma SeenIsLatest(cl: Client, s: State, g: nat, c: nat)
    requires Inv(cl, s) && g < cl.n && c < cl.cells && Working(s, g) && !Foreign(cl, g, s.gen[g], c)
    ensures s.gen[g] == s.bumps
    ensures c !in s.cache[g] ==> s.main[c] == Value(Behind(cl, s, g), c, Start(cl, s.gen[g], c))
    ensures Seen(cl, s, g, c) == Value(Behind(cl, s, g), c, Start(cl, s.gen[g], c))
  {
    hide Behind, PutsTo, ClientOk, Value, Start;
    assert CacheOk(cl, s, g, c) && PlaceOk(cl, s, g) && MainOk(cl, s, c);
    forall w | 0 <= w < cl.n && w != g
      ensures !HasPut(cl, s, w, c)
    {
      if HasPut(cl, s, w, c) {
        BehindPuts(cl, s, w, c);
      }
    }
    if !HasPut(cl, s, g, c) {
      NoPut(Behind(cl, s, g), c, Start(cl, s.gen[g], c));
    }
  }

  /** A step that leaves memory, caches and everybody's code position alone. */
  lemma MemoryStays(cl: Client, s: State, s': State)
    requires Shape(cl, s) && Shape(cl, s') && MemoryOk(cl, s)
    requires s'.main == s.main && s'.cache == s.cache && s'.gen == s.gen && s'.bumps == s.bumps && s'.bad == s.bad
    requires forall h | 0 <= h < cl.n :: Behind(cl, s', h) == Behind(cl, s, h) && Working(s', h) == Working(s, h)
    ensures MemoryOk(cl, s')
  {
    hide Behind, PutsTo, Value, Start, Working, Foreign;
    forall g, c: nat | 0 <= g < cl.n && c < cl.cells
      ensures CacheOk(cl, s', g, c)
    {
      assert CacheOk(cl, s, g, c);
    }
    forall c: nat | c < cl.cells
      ensures MainOk(cl, s', c)
    {
      assert MainOk(cl, s, c);
      assert forall w | 0 <= w < cl.n :: HasPut(cl, s', w, c) == HasPut(cl, s, w, c);
    }
  }

  lemma MoreBehind(cl: Client, s: State, s': State, g: nat, i: nat)
    requires Shape(cl, s) && Shape(cl, s') && g < cl.n && s'.gen[g] == s.gen[g]
    requires s.pc[g] == Run(i) && i < |cl.code(g, s.gen[g])| && s'.pc[g] == Run(i + 1)
    ensures Behind(cl, s', g) == Behind(cl, s, g) + [cl.code(g, s.gen[g])[i]]
  {
  }

  lemma OneMore(accesses: seq<Access>, a: Access, c: nat, before: int)
    ensures PutsTo(accesses + [a], c) <==> PutsTo(accesses, c) || (a.Put? && a.c == c)
    ensures Value(accesses + [a], c, before) == if a.Put? && a.c == c then a.v else Value(accesses, c, before)
  {
    var more := accesses + [a];
    assert more[..|accesses|] == accesses && more[|accesses|] == a;
    if x :| 0 <= x < |accesses| && accesses[x].Put? && accesses[x].c == c {
      assert more[x].Put?;
    }
  }

  /** Where an access leaves everybody. */
  predicate Accessed(cl: Client, s: State, s': State, g: nat, a: Access)
    requires Shape(cl, s) && g < cl.n
  {
    && Shape(cl, s') && s'.gen == s.gen && s'.bumps == s.bumps && s'.main == s.main && s'.bad == s.bad
    && (forall h | 0 <= h < cl.n && h != g :: s'.pc[h] == s.pc[h] && s'.cache[h] == s.cache[h])
    && Working(s, g) && Working(s', g) && Behind(cl, s', g) == Behind(cl, s, g) + [a]
    && s'.cache[g] == match a case Put(c, v) => Kept(s.cache[g], c, Line(v, true)) case Look(_) => s.cache[g]
  }

  lemma AccessKeepsCache(cl: Client, s: State, s': State, g: nat, a: Access, h: nat, c: nat)
    requires Inv(cl, s) && g < cl.n && Accessed(cl, s, s', g, a) && h < cl.n && c < cl.cells
    ensures CacheOk(cl, s', h, c)
  {
    hide Value, Start, PutsTo, Foreign, ClientOk, MainOk, WordsOk;
    assert CacheOk(cl, s, h, c);
    if h == g {
      OneMore(Behind(cl, s, g), a, c, Start(cl, s.gen[g], c));
      hide Behind;
    }
  }

  lemma AccessKeepsMain(cl: Client, s: State, s': State, g: nat, a: Access, c: nat)
    requires Inv(cl, s) && g < cl.n && Accessed(cl, s, s', g, a) && c < cl.cells
    requires a in cl.code(g, s.gen[g])
    ensures MainOk(cl, s', c)
  {
    hide Value, Start, PutsTo, Foreign, ClientOk, CacheOk, Touches;
    assert MainOk(cl, s, c) && PlaceOk(cl, s, g);
    OneMore(Behind(cl, s, g), a, c, Start(cl, s.gen[g], c));
    forall h | 0 <= h < cl.n && h != g
      ensures HasPut(cl, s', h, c) == HasPut(cl, s, h, c) && Behind(cl, s', h) == Behind(cl, s, h)
    {
    }
    hide Behind;
    if a.Put? && a.c == c {
      TouchedBy(cl.code(g, s.gen[g]), a);
      Alone(cl, s, g, c);
      assert HasPut(cl, s', g, c) && IsDirty(s', g, c);
    }
  }

  lemma TouchedBy(accesses: seq<Access>, a: Access)
    requires a in accesses
    ensures Touches(accesses, a.c)
  {
  }

  lemma AccessKeepsMemory(cl: Client, s: State, g: nat, i: nat)
    requires Inv(cl, s) && g < cl.n && s.pc[g] == Run(i) && i < |cl.code(g, s.gen[g])|
    ensures MemoryOk(cl, Step(cl, s, g))
  {
    var s' := Step(cl, s, g);
    var a := cl.code(g, s.gen[g])[i];
    MoreBehind(cl, s, s', g, i);
    assert a.c < cl.cells;
    LooksAreFresh(cl, s, g, i);
    hide MemoryOk, WordsOk, ClientOk;
    assert Accessed(cl, s, s', g, a);
    hide Accessed, Step;
    forall h, c: nat | 0 <= h < cl.n && c < cl.cells
      ensures CacheOk(cl, s', h, c)
    {
      AccessKeepsCache(cl, s, s', g, a, h, c);
    }
    forall c: nat | c < cl.cells
      ensures MainOk(cl, s', c)
    {
      AccessKeepsMain(cl, s, s', g, a, c);
    }
    NoneBad(cl, s, s', g, a);
  }

  lemma NoneBad(cl: Client, s: State, s': State, g: nat, a: Access)
    requires Inv(cl, s) && g < cl.n && Accessed(cl, s, s', g, a)
    requires forall h, c: nat {:trigger CacheOk(cl, s', h, c)} | 0 <= h < cl.n && c < cl.cells :: CacheOk(cl, s', h, c)
    requires forall c: nat {:trigger MainOk(cl, s', c)} | c < cl.cells :: MainOk(cl, s', c)
    ensures MemoryOk(cl, s')
  {
    hide CacheOk, MainOk, WordsOk, ClientOk;
  }

  /** No read is stale. */
  lemma LooksAreFresh(cl: Client, s: State, g: nat, i: nat)
    requires Inv(cl, s) && g < cl.n && s.pc[g] == Run(i) && i < |cl.code(g, s.gen[g])|
    ensures var a := cl.code(g, s.gen[g])[i];
            a.c < cl.cells && (a.Look? ==> Seen(cl, s, g, a.c) == Latest(cl, g, s.gen[g], i, a.c))
  {
    var a := cl.code(g, s.gen[g])[i];
    hide Value, Start, PutsTo, Touches, MemoryOk, RaceFree;
    assert PlaceOk(cl, s, g);
    TouchedBy(cl.code(g, s.gen[g]), a);
    Alone(cl, s, g, a.c);
    SeenIsLatest(cl, s, g, a.c);
  }

  lemma ReleaseKeepsMemory(cl: Client, s: State, g: nat)
    requires Inv(cl, s) && g < cl.n && s.pc[g] == Release
    ensures MemoryOk(cl, Step(cl, s, g))
  {
    hide Value, Start, PutsTo, Foreign, ClientOk, WordsOk;
    var s' := Step(cl, s, g);
    forall h, c: nat | 0 <= h < cl.n && c < cl.cells
      ensures CacheOk(cl, s', h, c)
    {
      assert CacheOk(cl, s, h, c);
    }
    forall c: nat | c < cl.cells
      ensures MainOk(cl, s', c)
    {
      ReleaseKeepsMain(cl, s, g, c);
    }
  }

  lemma ReleaseKeepsMain(cl: Client, s: State, g: nat, c: nat)
    requires Inv(cl, s) && g < cl.n && s.pc[g] == Release && c < cl.cells
    ensures MainOk(cl, Step(cl, s, g), c)
  {
    hide Value, Start, PutsTo, Foreign, ClientOk, WordsOk, CacheOk;
    var s' := Step(cl, s, g);
    assert MainOk(cl, s, c);
    forall h | 0 <= h < cl.n
      ensures HasPut(cl, s', h, c) == HasPut(cl, s, h, c) && Behind(cl, s', h) == Behind(cl, s, h)
    {
    }
    if IsDirty(s, g, c) {
      DirtyIsLatest(cl, s, g, c);
    }
    hide Behind;
  }

  lemma BumpKeepsMemory(cl: Client, s: State, g: nat)
    requires Inv(cl, s) && g < cl.n && s.pc[g] == Bump
    ensures MemoryOk(cl, Step(cl, s, g))
  {
    hide Value, Start, PutsTo, Foreign, ClientOk;
    var s' := Step(cl, s, g);
    assert Leader(s, g) && AllOthersWait(cl, s, g) && PlaceOk(cl, s, g);
    forall h, c: nat | 0 <= h < cl.n && c < cl.cells
      ensures CacheOk(cl, s', h, c)
    {
      assert CacheOk(cl, s, h, c);
      assert h != g ==> Waits(s, h);
    }
    forall c: nat | c < cl.cells
      ensures MainOk(cl, s', c)
    {
      BumpKeepsMain(cl, s, g, c);
    }
  }

  /** When the last workgroup has arrived, memory is what the sequential run has reached. */
  lemma BumpKeepsMain(cl: Client, s: State, g: nat, c: nat)
    requires Inv(cl, s) && g < cl.n && s.pc[g] == Bump && c < cl.cells
    ensures MainOk(cl, Step(cl, s, g), c)
  {
    hide Value, Through, PutsTo, Foreign, RaceFree, InBounds;
    var s' := Step(cl, s, g);
    assert Leader(s, g) && AllOthersWait(cl, s, g) && PlaceOk(cl, s, g);
    assert MainOk(cl, s, c);
    forall h | 0 <= h < cl.n
      ensures s.gen[h] == s.bumps && Behind(cl, s, h) == cl.code(h, s.bumps) && !IsDirty(s, h, c)
      ensures !HasPut(cl, s', h, c)
    {
      assert CacheOk(cl, s, h, c);
      assert h != g ==> Waits(s, h);
    }
    hide Behind, CacheOk, IsDirty;
    if w :| 0 <= w < cl.n && PutsTo(cl.code(w, s.bumps), c) {
      assert HasPut(cl, s, w, c);
      OneWriter(cl, s.bumps, c, w, cl.n);
    } else {
      assert forall w | 0 <= w < cl.n :: !HasPut(cl, s, w, c);
      NoWriter(cl, s.bumps, c, cl.n);
    }
  }

  lemma AcquireKeepsMemory(cl: Client, s: State, g: nat)
    requires Inv(cl, s) && g < cl.n && s.pc[g] == Acquire
    ensures MemoryOk(cl, Step(cl, s, g))
  {
    hide Value, Start, Foreign, ClientOk;
    var s' := Step(cl, s, g);
    assert PlaceOk(cl, s, g);
    forall h, c: nat | 0 <= h < cl.n && c < cl.cells
      ensures CacheOk(cl, s', h, c)
    {
      assert CacheOk(cl, s, h, c);
    }
    forall c: nat | c < cl.cells
      ensures MainOk(cl, s', c)
    {
      AcquireKeepsMain(cl, s, g, c);
    }
  }

  lemma AcquireKeepsMain(cl: Client, s: State, g: nat, c: nat)
    requires Inv(cl, s) && g < cl.n && s.pc[g] == Acquire && c < cl.cells
    ensures MainOk(cl, Step(cl, s, g), c)
  {
    hide Value, Start, PutsTo, Foreign, ClientOk;
    var s' := Step(cl, s, g);
    assert PlaceOk(cl, s, g) && MainOk(cl, s, c) && CacheOk(cl, s, g, c);
    assert Behind(cl, s', g) == [];
    NothingPut(c);
    forall h | 0 <= h < cl.n && h != g
      ensures HasPut(cl, s', h, c) == HasPut(cl, s, h, c) && Behind(cl, s', h) == Behind(cl, s, h)
      ensures IsDirty(s', h, c) == IsDirty(s, h, c)
    {
    }
    hide Behind;
  }

  lemma MoveKeepsMemory(cl: Client, s: State, g: nat)
    requires Inv(cl, s) && g < cl.n
    ensures MemoryOk(cl, Step(cl, s, g))
  {
    hide CacheOk, MainOk, ClientOk;
    var s' := Step(cl, s, g);
    assert PlaceOk(cl, s, g);
    match s.pc[g] {
      case Run(i) =>
        if i < |cl.code(g, s.gen[g])| {
          AccessKeepsMemory(cl, s, g, i);
        } else {
          MemoryStays(cl, s, s');
        }
      case Release => ReleaseKeepsMemory(cl, s, g);
      case Bump => BumpKeepsMemory(cl, s, g);
      case Acquire => AcquireKeepsMemory(cl, s, g);
      case _ => MemoryStays(cl, s, s');
    }
  }

  /** What a change to one line or one memory cell leaves alone. */
  predicate OneLine(cl: Client, s: State, s': State, g: nat, c: nat)
    requires Shape(cl, s) && g < cl.n
  {
    && Shape(cl, s') && s'.pc == s.pc && s'.gen == s.gen && s'.bumps == s.bumps && s'.bad == s.bad
    && (forall h | 0 <= h < cl.n && h != g :: s'.cache[h] == s.cache[h])
    && (forall d: nat | d < cl.cells && d != c :: s'.main[d] == s.main[d] && (d in s'.cache[g] <==> d in s.cache[g]))
    && (forall d: nat | d < cl.cells && d != c && d in s.cache[g] :: s'.cache[g][d] == s.cache[g][d])
  }

  lemma LineKeepsMemory(cl: Client, s: State, s': State, g: nat, c: nat)
    requires Inv(cl, s) && g < cl.n && c < cl.cells && OneLine(cl, s, s', g, c)
    requires CacheOk(cl, s', g, c) && MainOk(cl, s', c)
    ensures MemoryOk(cl, s')
  {
    hide Value, Start, PutsTo, Foreign, ClientOk, WordsOk, Behind;
    SameBehind(cl, s, s');
    forall h, d: nat | 0 <= h < cl.n && d < cl.cells
      ensures CacheOk(cl, s', h, d)
    {
      assert CacheOk(cl, s, h, d);
    }
    forall d: nat | d < cl.cells
      ensures MainOk(cl, s', d)
    {
      assert MainOk(cl, s, d);
      assert d != c ==> forall w | 0 <= w < cl.n ::
          HasPut(cl, s', w, d) == HasPut(cl, s, w, d) && IsDirty(s', w, d) == IsDirty(s, w, d);
    }
  }

  lemma SameBehind(cl: Client, s: State, s': State)
    requires Shape(cl, s) && Shape(cl, s') && s'.pc == s.pc && s'.gen == s.gen
    ensures forall h | 0 <= h < cl.n :: Behind(cl, s', h) == Behind(cl, s, h) && Working(s', h) == Working(s, h)
  {
  }

  lemma WriteBackKeepsMemory(cl: Client, s: State, g: nat, c: nat)
    requires Inv(cl, s) && Enabled(cl, s, WriteBack(g, c))
    ensures MemoryOk(cl, Do(cl, s, WriteBack(g, c)))
  {
    hide Value, Start, PutsTo, Foreign, ClientOk, WordsOk, Behind;
    var s' := Do(cl, s, WriteBack(g, c));
    SameBehind(cl, s, s');
    DirtyIsLatest(cl, s, g, c);
    assert CacheOk(cl, s, g, c) && MainOk(cl, s, c);
    assert forall w | 0 <= w < cl.n :: HasPut(cl, s', w, c) == HasPut(cl, s, w, c);
    LineKeepsMemory(cl, s, s', g, c);
  }

  lemma EvictKeepsMemory(cl: Client, s: State, g: nat, c: nat)
    requires Inv(cl, s) && Enabled(cl, s, Evict(g, c))
    ensures MemoryOk(cl, Do(cl, s, Evict(g, c)))
  {
    hide Value, Start, PutsTo, Foreign, ClientOk, WordsOk, Behind;
    var s' := Do(cl, s, Evict(g, c));
    SameBehind(cl, s, s');
    assert CacheOk(cl, s, g, c) && MainOk(cl, s, c);
    assert forall w | 0 <= w < cl.n ::
        HasPut(cl, s', w, c) == HasPut(cl, s, w, c) && IsDirty(s', w, c) == IsDirty(s, w, c);
    LineKeepsMemory(cl, s, s', g, c);
  }

  lemma FetchKeepsMemory(cl: Client, s: State, g: nat, c: nat)
    requires Inv(cl, s) && Enabled(cl, s, Fetch(g, c))
    ensures MemoryOk(cl, Do(cl, s, Fetch(g, c)))
  {
    hide Value, Start, PutsTo, Foreign, ClientOk, WordsOk, Behind;
    var s' := Do(cl, s, Fetch(g, c));
    SameBehind(cl, s, s');
    assert CacheOk(cl, s, g, c) && MainOk(cl, s, c);
    assert forall w | 0 <= w < cl.n ::
        HasPut(cl, s', w, c) == HasPut(cl, s, w, c) && IsDirty(s', w, c) == IsDirty(s, w, c);
    if Working(s, g) && !Foreign(cl, g, s.gen[g], c) {
      SeenIsLatest(cl, s, g, c);
    }
    LineKeepsMemory(cl, s, s', g, c);
  }

  /** Every action keeps the invariant. */
  lemma DoKeepsInv(cl: Client, s: State, a: Action)
    requires Inv(cl, s) && Enabled(cl, s, a)
    ensures Inv(cl, Do(cl, s, a))
  {
    hide MemoryOk, WordsOk, ClientOk;
    var s' := Do(cl, s, a);
    ClientSize(cl);
    match a {
      case Move(g) =>
        MoveKeepsWords(cl, s, g);
        MoveKeepsMemory(cl, s, g);
      case WriteBack(g, c) =>
        WordsStay(cl, s, s');
        WriteBackKeepsMemory(cl, s, g, c);
      case Evict(g, c) =>
        WordsStay(cl, s, s');
        EvictKeepsMemory(cl, s, g, c);
      case Fetch(g, c) =>
        WordsStay(cl, s, s');
        FetchKeepsMemory(cl, s, g, c);
    }
  }

  lemma ClientSize(cl: Client)
    requires ClientOk(cl)
    ensures 0 < cl.n < WORD
  {
  }

  // ----- whole runs ---------------------------------------------------------------------------------

  /** `actions` is a run from `s`. */
  predicate IsRun(cl: Client, s: State, actions: seq<Action>)
    decreases |actions|
  {
    actions == [] || (Shape(cl, s) && Enabled(cl, s, actions[0]) && IsRun(cl, Do(cl, s, actions[0]), actions[1..]))
  }

  function After(cl: Client, s: State, actions: seq<Action>): State
    requires IsRun(cl, s, actions)
    decreases |actions|
  {
    if actions == [] then s else After(cl, Do(cl, s, actions[0]), actions[1..])
  }

  lemma {:induction false} RunKeepsInv(cl: Client, s: State, actions: seq<Action>)
    requires Inv(cl, s) && IsRun(cl, s, actions)
    ensures Inv(cl, After(cl, s, actions))
    decreases |actions|
  {
    hide MemoryOk, WordsOk, ClientOk, Do, Enabled;
    if actions == [] {
    } else {
      DoKeepsInv(cl, s, actions[0]);
      RunKeepsInv(cl, Do(cl, s, actions[0]), actions[1..]);
    }
  }

  /** How often workgroup `g` has arrived at the barrier. */
  function Arrivals(s: State, g: nat): nat
    requires g < |s.pc| && |s.gen| == |s.pc|
  {
    s.gen[g] + if s.pc[g].Spin? || s.pc[g] == Reset || s.pc[g] == Bump || s.pc[g] == Acquire then 1 else 0
  }

  /** Over any run of a race-free client, whatever the caches do: nobody has left more barriers
      than anybody has reached, completed calls differ by at most one, the arrival counter stays
      within the workgroup count, and every read has seen what the sequential run reads. */
  lemma BarrierHolds(cl: Client, actions: seq<Action>)
    requires ClientOk(cl) && IsRun(cl, Init(cl), actions)
    ensures var s := After(cl, Init(cl), actions);
            && Shape(cl, s) && s.bad == 0 && s.count <= cl.n && s.phase == s.bumps % WORD
            && forall g, h | 0 <= g < cl.n && 0 <= h < cl.n :: s.gen[g] <= Arrivals(s, h) && s.gen[g] <= s.gen[h] + 1
  {
    InitInv(cl);
    RunKeepsInv(cl, Init(cl), actions);
    var s := After(cl, Init(cl), actions);
    hide After, IsRun, CacheOk, MainOk, ClientOk;
    forall g, h | 0 <= g < cl.n && 0 <= h < cl.n
      ensures s.gen[g] <= Arrivals(s, h) && s.gen[g] <= s.gen[h] + 1
    {
      assert PlaceOk(cl, s, g) && PlaceOk(cl, s, h);
    }
    assert ClientOk(cl);
  }

  /** Once everybody is done, memory is what the sequential run leaves. */
  lemma MemoryAtEnd(cl: Client, actions: seq<Action>)
    requires ClientOk(cl) && IsRun(cl, Init(cl), actions)
    requires forall g | 0 <= g < |After(cl, Init(cl), actions).pc| :: After(cl, Init(cl), actions).pc[g] == Done
    ensures var s := After(cl, Init(cl), actions);
            Shape(cl, s) && forall c: nat | c < cl.cells :: s.main[c] == Start(cl, cl.calls, c)
  {
    InitInv(cl);
    RunKeepsInv(cl, Init(cl), actions);
    var s := After(cl, Init(cl), actions);
    hide After, IsRun, CacheOk, ClientOk;
    assert PlaceOk(cl, s, 0);
    forall c: nat | c < cl.cells
      ensures s.main[c] == Start(cl, cl.calls, c)
    {
      assert MainOk(cl, s, c);
      NothingPut(c);
    }
  }

  // ----- the neighbour check ------------------------------------------------------------------------

  /** Each workgroup writes its own cell, passes the barrier, reads its neighbour's cell and passes
      the barrier again. */
  function Neighbours(n: nat, iterations: nat): Client
    requires n > 0
  {
    Client(n, n, 2 * iterations,
      (g: nat, t: nat) => if g >= n then [] else if t % 2 == 0 then [Put(g, t / 2 + 1)] else [Look((g + 1) % n)])
  }

  lemma NeighboursOk(n: nat, iterations: nat)
    requires 0 < n < WORD
    ensures ClientOk(Neighbours(n, iterations))
  {
    var cl := Neighbours(n, iterations);
    forall t, g, h, c | 0 <= g < cl.n && 0 <= h < cl.n && g != h && PutsTo(cl.code(g, t), c)
      ensures !Touches(cl.code(h, t), c)
    {
      assert |cl.code(g, t)| == 1 && |cl.code(h, t)| == 1;
    }
  }

  lemma OwnCell(n: nat, iterations: nat, t: nat, c: nat)
    requires 0 < n < WORD && c < n && t % 2 == 0
    ensures var code := Neighbours(n, iterations).code(c, t); PutsTo(code, c) && forall before ::
        Value(code, c, before) == t / 2 + 1
  {
    var code := Neighbours(n, iterations).code(c, t);
    assert code == [Put(c, t / 2 + 1)];
    assert code[0].Put? && code[0].c == c;
  }

  lemma OnlyLooks(n: nat, iterations: nat, t: nat, c: nat)
    requires 0 < n < WORD && t % 2 == 1
    ensures forall g | 0 <= g < n :: !PutsTo(Neighbours(n, iterations).code(g, t), c)
  {
    forall g | 0 <= g < n
      ensures !PutsTo(Neighbours(n, iterations).code(g, t), c)
    {
      assert |Neighbours(n, iterations).code(g, t)| == 1;
    }
  }

  lemma {:induction false} NeighbourValue(n: nat, iterations: nat, t: nat, c: nat)
    requires 0 < n < WORD && c < n
    ensures Start(Neighbours(n, iterations), t, c) == (t + 1) / 2
    decreases t
  {
    hide PutsTo, Value, ClientOk, Through;
    var cl := Neighbours(n, iterations);
    if t == 0 {
    } else {
      NeighboursOk(n, iterations);
      ClientIsRaceFree(cl);
      NeighbourValue(n, iterations, t - 1, c);
      if (t - 1) % 2 == 0 {
        OwnCell(n, iterations, t - 1, c);
        OneWriter(cl, t - 1, c, c, n);
      } else {
        OnlyLooks(n, iterations, t - 1, c);
        NoWriter(cl, t - 1, c, n);
      }
    }
  }

  lemma ClientIsRaceFree(cl: Client)
    requires ClientOk(cl)
    ensures RaceFree(cl)
  {
    hide RaceFree, InBounds;
  }

  /** A check in generation `t` expects the value of its iteration. */
  lemma NeighbourExpects(n: nat, iterations: nat, g: nat, t: nat)
    requires 0 < n < WORD && g < n && t % 2 == 1
    ensures Latest(Neighbours(n, iterations), g, t, 0, (g + 1) % n) == (t + 1) / 2
  {
    hide Start, Neighbours;
    NeighbourValue(n, iterations, t, (g + 1) % n);
  }

  /** No check fails, for any number of workgroups and iterations. */
  lemma NeighbourChecksPass(n: nat, iterations: nat, actions: seq<Action>)
    requires 0 < n < WORD && IsRun(Neighbours(n, iterations), Init(Neighbours(n, iterations)), actions)
    ensures After(Neighbours(n, iterations), Init(Neighbours(n, iterations)), actions).bad == 0
  {
    hide Neighbours, IsRun, After, ClientOk;
    NeighboursOk(n, iterations);
    BarrierHolds(Neighbours(n, iterations), actions);
  }

  // ----- progress -----------------------------------------------------------------------------------

  /** A move that is not a fruitless look at the phase word. */
  predicate Advances(cl: Client, s: State, g: nat)
    requires Shape(cl, s) && g < cl.n
  {
    s.pc[g] != Done && !(s.pc[g].Spin? && s.pc[g].ph == s.phase)
  }

  lemma EverybodyWaits(cl: Client, s: State)
    requires Shape(cl, s) && forall i: nat | i < cl.n :: Waits(s, i)
    ensures |Waiting(s)| == cl.n
  {
    var all := AllBelow(cl.n);
    assert Waiting(s) == all;
  }

  /** As long as some workgroup is not done, some workgroup can advance: no reachable state is
      stuck. */
  lemma NeverStuck(cl: Client, s: State) returns (g: nat)
    requires Inv(cl, s) && exists h :: 0 <= h < cl.n && s.pc[h] != Done
    ensures g < cl.n && Advances(cl, s, g)
  {
    hide MemoryOk, ClientOk;
    var h: nat :| h < cl.n && s.pc[h] != Done;
    if f: nat :| f < cl.n && Advances(cl, s, f) {
      g := f;
    } else {
      assert PlaceOk(cl, s, h);
      forall i: nat | i < cl.n
        ensures Waits(s, i) && !Leader(s, i)
      {
        assert PlaceOk(cl, s, i) && !Advances(cl, s, i) && !Advances(cl, s, h);
        PhaseMoves(s.gen[i]);
        PhaseMoves(s.gen[h]);
      }
      EverybodyWaits(cl, s);
      assert false;
    }
  }

  /** The steps of the generations from `t` on. */
  function Ahead(cl: Client, g: nat, t: nat): nat
    decreases cl.calls - t
  {
    if t >= cl.calls then 0 else |cl.code(g, t)| + 9 + Ahead(cl, g, t + 1)
  }

  /** The steps taken in the current generation. */
  function Taken(cl: Client, s: State, g: nat): nat
    requires g < |s.pc| && |s.gen| == |s.pc|
  {
    var all := |cl.code(g, s.gen[g])|;
    match s.pc[g]
    case Run(i) => i
    case Release => all + 1
    case ReadPhase => all + 2
    case Arrive(_) => all + 3
    case Reset => all + 4
    case Bump => all + 5
    case Spin(_) => all + 6
    case Acquire => all + 7
    case Done => 0
  }

  /** What one workgroup still has to do. */
  function Remaining(cl: Client, s: State, g: nat): int
    requires g < |s.pc| && |s.gen| == |s.pc|
  {
    Ahead(cl, g, s.gen[g]) - Taken(cl, s, g)
  }

  function Total(cl: Client, s: State, to: nat): int
    requires to <= |s.pc| && |s.gen| == |s.pc|
  {
    if to == 0 then 0 else Total(cl, s, to - 1) + Remaining(cl, s, to - 1)
  }

  lemma {:induction false} TotalChanges(cl: Client, s: State, s': State, g: nat, to: nat)
    requires to <= |s.pc| == |s'.pc| == |s.gen| == |s'.gen| && g < |s.pc|
    requires forall h | 0 <= h < |s.pc| && h != g :: s'.pc[h] == s.pc[h] && s'.gen[h] == s.gen[h]
    ensures Total(cl, s', to) - Total(cl, s, to) == if g < to then Remaining(cl, s', g) - Remaining(cl, s, g) else 0
  {
    hide Ahead;
    if to == 0 {
    } else {
      TotalChanges(cl, s, s', g, to - 1);
    }
  }

  lemma {:induction false} TotalNonNegative(cl: Client, s: State, to: nat)
    requires Inv(cl, s) && to <= cl.n
    ensures Total(cl, s, to) >= 0
  {
    hide MemoryOk, ClientOk;
    if to == 0 {
    } else {
      TotalNonNegative(cl, s, to - 1);
      assert PlaceOk(cl, s, to - 1);
    }
  }

  lemma StepShrinks(cl: Client, s: State, g: nat)
    requires Inv(cl, s) && g < cl.n && Advances(cl, s, g)
    ensures Shape(cl, Step(cl, s, g)) && Remaining(cl, Step(cl, s, g), g) < Remaining(cl, s, g)
    ensures forall h | 0 <= h < cl.n && h != g :: Step(cl, s, g).pc[h] == s.pc[h] && Step(cl, s, g).gen[h] == s.gen[h]
  {
    hide MemoryOk, ClientOk, Seen, Latest;
    assert PlaceOk(cl, s, g);
  }

  /** Every advance brings the end nearer, so a run of advances ends, with everybody done. */
  lemma AdvanceShrinks(cl: Client, s: State, g: nat)
    requires Inv(cl, s) && g < cl.n && Advances(cl, s, g)
    ensures Shape(cl, Step(cl, s, g)) && 0 <= Total(cl, Step(cl, s, g), cl.n) < Total(cl, s, cl.n)
  {
    hide MemoryOk, WordsOk, ClientOk, Remaining, Step;
    StepShrinks(cl, s, g);
    TotalChanges(cl, s, Step(cl, s, g), g, cl.n);
    DoKeepsInv(cl, s, Move(g));
    TotalNonNegative(cl, Step(cl, s, g), cl.n);
  }
}
