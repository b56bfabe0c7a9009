/** Two matrix multiplications against the plain triple loop: packed panels of B with 6-row
    blocks and K sweeps, and zero-padded square tiles. The scalars are any type with a
    multiply-add; every result is the same chain of multiply-adds, in the same order. */
module Matmul {
  import opened Arith

  datatype Scalars<!T> = Scalars(zero: T, mad: (T, T, T) -> T)

  type Matrix<T> = seq<seq<T>>

  predicate IsMatrix<T>(a: Matrix<T>, rows: nat, cols: nat) {
    |a| == rows && forall r | 0 <= r < rows :: |a[r]| == cols
  }

  /** The dot product of row `r` of `a` and column `c` of `b`, the first `k` terms. */
  function Dot<T>(ops: Scalars<T>, a: Matrix<T>, b: Matrix<T>, r: nat, c: nat, k: nat): T
    requires r < |a| && k <= |a[r]| && k <= |b| && forall j | 0 <= j < k :: c < |b[j]|
  {
    if k == 0 then ops.zero else ops.mad(a[r][k - 1], b[k - 1][c], Dot(ops, a, b, r, c, k - 1))
  }

  /** The reference loops. */
  method RefMM<T(0)>(ops: Scalars<T>, a: Matrix<T>, b: Matrix<T>, out: array2<T>)
    requires IsMatrix(a, out.Length0, |b|) && IsMatrix(b, |b|, out.Length1)
    modifies out
    ensures forall r, c | 0 <= r < out.Length0 && 0 <= c < out.Length1 :: out[r, c] == Dot(ops, a, b, r, c, |b|)
  {
    var i := 0;
    while i < out.Length0
      invariant 0 <= i <= out.Length0
      invariant forall r, c | 0 <= r < i && 0 <= c < out.Length1 :: out[r, c] == Dot(ops, a, b, r, c, |b|)
    {
      var j := 0;
      while j < out.Length1
        invariant 0 <= j <= out.Length1
        invariant forall r, c | 0 <= r < i && 0 <= c < out.Length1 :: out[r, c] == Dot(ops, a, b, r, c, |b|)
        invariant forall c | 0 <= c < j :: out[i, c] == Dot(ops, a, b, i, c, |b|)
      {
        var s, k := ops.zero, 0;
        while k < |b|
          invariant 0 <= k <= |b| && s == Dot(ops, a, b, i, j, k)
        {
          s := ops.mad(a[i][k], b[k][j], s);
          k := k + 1;
        }
        out[i, j] := s;
        j := j + 1;
      }
      i := i + 1;
    }
  }

  // ----- packing B into panels ------------------------------------------------------------------------

  const PANEL := 16
  const ROWS := 6

  /** Panel `g / K` row `g % K`: sixteen consecutive columns of one row of B. */
  ghost predicate IsPacked<T(!new)>(bp: seq<T>, b: Matrix<T>, cols: nat) {
    && cols % PANEL == 0 && IsMatrix(b, |b|, cols) && |bp| == cols / PANEL * |b| * PANEL
    && forall g: nat, j: nat | g < cols / PANEL * |b| && j < PANEL :: PackedAt(bp, b, cols, g, j)
  }

  ghost predicate PackedAt<T(!new)>(bp: seq<T>, b: Matrix<T>, cols: nat, g: nat, j: nat)
    requires cols % PANEL == 0 && IsMatrix(b, |b|, cols) && g < cols / PANEL * |b| && j < PANEL
  {
    PanelIndex(cols, |b|, g);
    g * PANEL + j < |bp| && bp[g * PANEL + j] == b[g % |b|][g / |b| * PANEL + j]
  }

  lemma PanelIndex(cols: nat, rows: nat, g: nat)
    requires cols % PANEL == 0 && g < cols / PANEL * rows
    ensures rows > 0 && g / rows < cols / PANEL && g / rows * PANEL + PANEL <= cols
    ensures g * PANEL + PANEL <= cols / PANEL * rows * PANEL
  {
    if rows > 0 {
      DivBelow(g, cols / PANEL, rows);
    }
    MulMonotone(g + 1, cols / PANEL * rows, PANEL);
  }

  /** One work item per panel row; each moves sixteen values. */
  method PackB<T(0, !new)>(b: Matrix<T>, cols: nat, bp: array<T>)
    requires cols % PANEL == 0 && IsMatrix(b, |b|, cols) && bp.Length == cols / PANEL * |b| * PANEL
    modifies bp
    ensures IsPacked(bp[..], b, cols)
  {
    hide PackedAt;
    var gid := 0;
    while gid < cols / PANEL * |b|
      invariant 0 <= gid <= cols / PANEL * |b|
      invariant forall g: nat, j: nat | g < gid && j < PANEL :: PackedAt(bp[..], b, cols, g, j)
    {
      PanelIndex(cols, |b|, gid);
      ghost var was := bp[..];
      PackRow(b, cols, bp, gid);
      forall g: nat, j: nat | g <= gid && j < PANEL
        ensures PackedAt(bp[..], b, cols, g, j)
      {
        RowPacked(was, bp[..], b, cols, gid, g, j);
      }
      gid := gid + 1;
    }
  }

  /** One work item: the 16 values of one row of one panel. */
  method PackRow<T(0)>(b: Matrix<T>, cols: nat, bp: array<T>, gid: nat)
    requires |b| > 0 && cols % PANEL == 0 && IsMatrix(b, |b|, cols) && gid * PANEL + PANEL <= bp.Length
    requires gid / |b| * PANEL + PANEL <= cols
    modifies bp
    ensures bp[..] == RowWritten(old(bp[..]), b, gid)
  {
    var p, k := gid / |b|, gid % |b|;
    forall j | 0 <= j < PANEL {
      bp[gid * PANEL + j] := b[k][p * PANEL + j];
    }
  }

  function RowWritten<T>(bp: seq<T>, b: Matrix<T>, gid: nat): (r: seq<T>)
    requires |b| > 0 && gid * PANEL + PANEL <= |bp| && forall k | 0 <= k < |b| :: gid / |b| * PANEL + PANEL <= |b[k]|
    ensures |r| == |bp|
  {
    bp[..gid * PANEL] + b[gid % |b|][gid / |b| * PANEL..gid / |b| * PANEL + PANEL] + bp[gid * PANEL + PANEL..]
  }

  lemma RowPacked<T(!new)>(was: seq<T>, now: seq<T>, b: Matrix<T>, cols: nat, gid: nat, g: nat, j: nat)
    requires |b| > 0 && cols % PANEL == 0 && IsMatrix(b, |b|, cols) && g <= gid < cols / PANEL * |b| && j < PANEL
    requires gid * PANEL + PANEL <= |was| && gid / |b| * PANEL + PANEL <= cols && now == RowWritten(was, b, gid)
    requires g < gid ==> PackedAt(was, b, cols, g, j)
    ensures PackedAt(now, b, cols, g, j)
  {
    hide RowWritten;
    PanelIndex(cols, |b|, g);
    if g < gid {
      MulMonotone(g + 1, gid, PANEL);
    }
    WrittenAt(was, b, gid, g * PANEL + j);
  }

  lemma WrittenAt<T(!new)>(was: seq<T>, b: Matrix<T>, gid: nat, x: nat)
    requires |b| > 0 && gid * PANEL + PANEL <= |was|
    requires forall k | 0 <= k < |b| :: gid / |b| * PANEL + PANEL <= |b[k]|
    requires x < gid * PANEL + PANEL
    ensures RowWritten(was, b, gid)[x] ==
              if x < gid * PANEL then was[x] else b[gid % |b|][gid / |b| * PANEL + (x - gid * PANEL)]
  {
    Sliced(was, b[gid % |b|], gid * PANEL, gid / |b| * PANEL, x);
  }

  /** A window of one list written over another, up to the end of the window. */
  lemma Sliced<T(!new)>(was: seq<T>, row: seq<T>, at: nat, start: nat, x: nat)
    requires at + PANEL <= |was| && start + PANEL <= |row| && x < at + PANEL
    ensures (was[..at] + row[start..start + PANEL] + was[at + PANEL..])[x] ==
              if x < at then was[x] else row[start + (x - at)]
  {
  }

  /** The panel value that meets row `k` of column `p * 16 + j`. */
  lemma PanelValue<T(!new)>(bp: seq<T>, b: Matrix<T>, cols: nat, p: nat, k: nat, j: nat)
    requires IsPacked(bp, b, cols) && p < cols / PANEL && k < |b| && j < PANEL
    ensures (p * |b| + k) * PANEL + j < |bp| && p * PANEL + j < cols
    ensures bp[(p * |b| + k) * PANEL + j] == b[k][p * PANEL + j]
  {
    var g := p * |b| + k;
    MulMonotone(p + 1, cols / PANEL, |b|);
    assert (p + 1) * |b| == p * |b| + |b|;
    DivAtLeast(g, p, |b|);
    DivBelow(g, p + 1, |b|);
    assert g / |b| == p && g % |b| == k by {
      assert g == g / |b| * |b| + g % |b|;
    }
    assert PackedAt(bp, b, cols, g, j);
    PanelIndex(cols, |b|, g);
  }

  // ----- one work group of one K sweep ------------------------------------------------------------------

  /** Sizes of one multiplication: M x K by K x N, and panels per work group. */
  datatype Sizes = Sizes(M: nat, N: nat, K: nat, PC: pos)
  {
    function RowBlocks(): nat { (M + 5) / 6 }
    function PanelGroups(): nat { (N / PANEL + PC - 1) / PC }
  }

  ghost predicate Operands<T(!new)>(z: Sizes, a: Matrix<T>, b: Matrix<T>, bp: seq<T>) {
    IsMatrix(a, z.M, z.K) && |b| == z.K && IsPacked(bp, b, z.N)
  }

  /** The work group that owns a cell of the result. */
  function Owner(z: Sizes, r: nat, c: nat): (nat, nat) { (r / ROWS, c / PANEL / z.PC) }

  /** What a cell must hold once the terms below `kc` are done: full row blocks accumulate sweep
      by sweep, a ragged last block is finished in the first sweep. */
  function After<T>(ops: Scalars<T>, z: Sizes, a: Matrix<T>, b: Matrix<T>, before: T, r: nat, c: nat, kc: nat): T
    requires r < z.M && c < z.N && kc <= z.K && IsMatrix(a, z.M, z.K) && IsMatrix(b, z.K, z.N)
  {
    if kc == 0 then before
    else if r / ROWS * ROWS + ROWS > z.M then Dot(ops, a, b, r, c, z.K)
    else Dot(ops, a, b, r, c, kc)
  }

  /** Sixteen columns of six rows, one more term each. */
  function MadTile<T>(ops: Scalars<T>, acc: Matrix<T>, column: seq<T>, row: seq<T>): (r: Matrix<T>)
    requires IsMatrix(acc, ROWS, PANEL) && |column| == ROWS && |row| == PANEL
    ensures IsMatrix(r, ROWS, PANEL)
    ensures forall i, j | 0 <= i < ROWS && 0 <= j < PANEL :: r[i][j] == ops.mad(column[i], row[j], acc[i][j])
  {
    seq(ROWS, i requires 0 <= i < ROWS =>
        seq(PANEL, j requires 0 <= j < PANEL => ops.mad(column[i], row[j], acc[i][j])))
  }

  ghost predicate TileIs<T(!new)>(ops: Scalars<T>, z: Sizes, a: Matrix<T>, b: Matrix<T>, acc: Matrix<T>, r0: nat,
      p: nat, k: nat)
    requires IsMatrix(a, z.M, z.K) && IsMatrix(b, z.K, z.N) && k <= z.K && r0 + ROWS <= z.M && p * PANEL + PANEL <= z.N
  {
    IsMatrix(acc, ROWS, PANEL) && forall i, j | 0 <= i < ROWS && 0 <= j < PANEL ::
        acc[i][j] == Dot(ops, a, b, r0 + i, p * PANEL + j, k)
  }

  lemma PanelRow<T(!new)>(bp: seq<T>, b: Matrix<T>, cols: nat, p: nat, k: nat)
    requires IsPacked(bp, b, cols) && p < cols / PANEL && k < |b|
    ensures var base := (p * |b| + k) * PANEL;
            base + PANEL <= |bp| && p * PANEL + PANEL <= cols
                && bp[base..base + PANEL] == b[k][p * PANEL..p * PANEL + PANEL]
  {
    var base := (p * |b| + k) * PANEL;
    PanelValue(bp, b, cols, p, k, PANEL - 1);
    var left, right := bp[base..base + PANEL], b[k][p * PANEL..p * PANEL + PANEL];
    forall j: nat | j < PANEL
      ensures left[j] == right[j]
    {
      PanelValue(bp, b, cols, p, k, j);
    }
  }

  lemma OperandShapes<T(!new)>(z: Sizes, a: Matrix<T>, b: Matrix<T>, bp: seq<T>)
    requires Operands(z, a, b, bp)
    ensures IsMatrix(a, z.M, z.K) && IsMatrix(b, z.K, z.N) && |b| == z.K && IsPacked(bp, b, z.N)
  {
  }

  lemma TileShape<T(!new)>(ops: Scalars<T>, z: Sizes, a: Matrix<T>, b: Matrix<T>, acc: Matrix<T>, r0: nat, p: nat,
      k: nat)
    requires IsMatrix(a, z.M, z.K) && IsMatrix(b, z.K, z.N) && k <= z.K && r0 + ROWS <= z.M && p * PANEL + PANEL <= z.N
    requires TileIs(ops, z, a, b, acc, r0, p, k)
    ensures IsMatrix(acc, ROWS, PANEL)
  {
  }

  lemma MadStep<T(!new)>(ops: Scalars<T>, z: Sizes, a: Matrix<T>, b: Matrix<T>, acc: Matrix<T>, r0: nat, p: nat, k: nat,
      column: seq<T>, row: seq<T>)
    requires IsMatrix(a, z.M, z.K) && IsMatrix(b, z.K, z.N) && k < z.K && r0 + ROWS <= z.M && p * PANEL + PANEL <= z.N
    requires TileIs(ops, z, a, b, acc, r0, p, k)
    requires |column| == ROWS && forall i | 0 <= i < ROWS :: column[i] == a[r0 + i][k]
    requires row == b[k][p * PANEL..p * PANEL + PANEL]
    ensures TileIs(ops, z, a, b, MadTile(ops, acc, column, row), r0, p, k + 1)
  {
  }

  /** The register loop: terms kc0..kc1 of one 6 x 16 tile. */
  method Accumulate<T(0, !new)>(ops: Scalars<T>, z: Sizes, a: Matrix<T>, ghost b: Matrix<T>, bp: seq<T>, r0: nat,
      p: nat, kc0: nat, kc1: nat, start: Matrix<T>)
    returns (acc: Matrix<T>)
    requires Operands(z, a, b, bp) && kc0 <= kc1 <= z.K && r0 + ROWS <= z.M && p < z.N / PANEL
    requires p * PANEL + PANEL <= z.N && TileIs(ops, z, a, b, start, r0, p, kc0)
    ensures TileIs(ops, z, a, b, acc, r0, p, kc1)
  {
    hide TileIs, IsPacked, Operands;
    OperandShapes(z, a, b, bp);
    acc := start;
    var k := kc0;
    while k < kc1
      invariant kc0 <= k <= kc1 && TileIs(ops, z, a, b, acc, r0, p, k)
    {
      PanelRow(bp, b, z.N, p, k);
      var base := (p * z.K + k) * PANEL;
      var column := seq(ROWS, i requires 0 <= i < ROWS => a[r0 + i][k]);
      var row := bp[base..base + PANEL];
      MadStep(ops, z, a, b, acc, r0, p, k, column, row);
      TileShape(ops, z, a, b, acc, r0, p, k);
      acc := MadTile(ops, acc, column, row);
      k := k + 1;
    }
  }

  ghost predicate Fits<T>(z: Sizes, out: array2<T>) {
    out.Length0 == z.M && out.Length1 == z.N
  }

  /** One 16-column panel of a full block of six rows. */
  method FullPanel<T(0, !new)>(ops: Scalars<T>, z: Sizes, a: Matrix<T>, ghost b: Matrix<T>, bp: seq<T>, out: array2<T>,
      r0: nat, p: nat, kc0: nat, kc1: nat)
    requires Operands(z, a, b, bp) && Fits(z, out) && kc0 <= kc1 <= z.K && r0 + ROWS <= z.M && p < z.N / PANEL
    requires p * PANEL + PANEL <= z.N
    requires kc0 > 0 ==> forall r, c | r0 <= r < r0 + ROWS && 0 <= c < z.N && c / PANEL == p ::
        out[r, c] == Dot(ops, a, b, r, c, kc0)
    modifies out
    ensures forall r, c | 0 <= r < z.M && 0 <= c < z.N ::
              out[r, c] == if r0 <= r < r0 + ROWS && c / PANEL == p then Dot(ops, a, b, r, c, kc1) else old(out[r, c])
  {
    var start :=
      if kc0 == 0 then seq(ROWS, i => seq(PANEL, j => ops.zero))
      else
        seq(ROWS, i requires 0 <= i < ROWS reads out =>
          seq(PANEL, j requires 0 <= j < PANEL reads out => out[r0 + i, p * PANEL + j]));
    forall i, j | 0 <= i < ROWS && 0 <= j < PANEL
      ensures start[i][j] == Dot(ops, a, b, r0 + i, p * PANEL + j, kc0)
    {
      var r, c := r0 + i, p * PANEL + j;
      assert c / PANEL == p;
      assert kc0 > 0 ==> start[i][j] == out[r, c];
    }
    var acc := Accumulate(ops, z, a, b, bp, r0, p, kc0, kc1, start);
    forall i, j | 0 <= i < ROWS && 0 <= j < PANEL {
      out[r0 + i, p * PANEL + j] := acc[i][j];
    }
    forall r, c | 0 <= r < z.M && 0 <= c < z.N
      ensures out[r, c] == if r0 <= r < r0 + ROWS && c / PANEL == p then Dot(ops, a, b, r, c, kc1) else old(out[r, c])
    {
      if r0 <= r < r0 + ROWS && c / PANEL == p {
        assert out[r0 + (r - r0), p * PANEL + c % PANEL] == acc[r - r0][c % PANEL];
      }
    }
  }

  /** One cell of a ragged last block: the whole sum in one go. */
  method RaggedCell<T(0, !new)>(ops: Scalars<T>, z: Sizes, a: Matrix<T>, ghost b: Matrix<T>, bp: seq<T>, r: nat, c: nat)
      returns (s: T)
    requires Operands(z, a, b, bp) && r < z.M && c < z.N
    ensures s == Dot(ops, a, b, r, c, z.K)
  {
    s := ops.zero;
    var k := 0;
    while k < z.K
      invariant 0 <= k <= z.K && s == Dot(ops, a, b, r, c, k)
    {
      PanelValue(bp, b, z.N, c / PANEL, k, c % PANEL);
      s := ops.mad(a[r][k], bp[(c / PANEL * z.K + k) * PANEL + c % PANEL], s);
      k := k + 1;
    }
  }

  method RaggedPanel<T(0, !new)>(ops: Scalars<T>, z: Sizes, a: Matrix<T>, ghost b: Matrix<T>, bp: seq<T>,
      out: array2<T>, r0: nat, p: nat)
    requires Operands(z, a, b, bp) && Fits(z, out) && r0 < z.M && p < z.N / PANEL && p * PANEL + PANEL <= z.N
    modifies out
    ensures forall r, c | 0 <= r < z.M && 0 <= c < z.N ::
              out[r, c] == if r0 <= r && c / PANEL == p then Dot(ops, a, b, r, c, z.K) else old(out[r, c])
  {
    var c := p * PANEL;
    while c < p * PANEL + PANEL
      invariant p * PANEL <= c <= p * PANEL + PANEL
      invariant forall r, d | 0 <= r < z.M && 0 <= d < z.N ::
                  out[r, d] == if r0 <= r && p * PANEL <= d < c then Dot(ops, a, b, r, d, z.K) else old(out[r, d])
    {
      var i := 0;
      while i < z.M - r0
        invariant 0 <= i <= z.M - r0
        invariant forall r, d | 0 <= r < z.M && 0 <= d < z.N ::
                    out[r, d] == if (r0 <= r && p * PANEL <= d < c) || (r0 <= r < r0 + i && d == c)
                        then Dot(ops, a, b, r, d, z.K) else old(out[r, d])
      {
        var s := RaggedCell(ops, z, a, b, bp, r0 + i, c);
        out[r0 + i, c] := s;
        i := i + 1;
      }
      c := c + 1;
    }
  }

  /** Which cells a work group owns, by rows and panels. */
  lemma OwnerRange(z: Sizes, gx: nat, gy: nat, r: nat, c: nat)
    ensures Owner(z, r, c) == (gx, gy) <==>
        gx * ROWS <= r < gx * ROWS + ROWS && gy * z.PC <= c / PANEL < gy * z.PC + z.PC
  {
    var p := c / PANEL;
    assert p == p / z.PC * z.PC + p % z.PC;
    if p / z.PC < gy {
      MulMonotone(p / z.PC + 1, gy, z.PC);
      assert (p / z.PC + 1) * z.PC == p / z.PC * z.PC + z.PC;
    } else if gy < p / z.PC {
      MulMonotone(gy + 1, p / z.PC, z.PC);
      assert (gy + 1) * z.PC == gy * z.PC + z.PC;
    }
  }

  lemma PanelFits(cols: nat, p: nat)
    requires cols % PANEL == 0 && p < cols / PANEL
    ensures p * PANEL + PANEL <= cols
  {
  }

  /** One work group of one sweep. It reads and writes only the cells it owns. */
  method WorkGroup<T(0, !new)>(ops: Scalars<T>, z: Sizes, a: Matrix<T>, ghost b: Matrix<T>, bp: seq<T>, out: array2<T>,
                               gx: nat, gy: nat, kc0: nat, kc1: nat, ghost before: Matrix<T>)
    requires Operands(z, a, b, bp) && Fits(z, out) && kc0 < kc1 <= z.K && IsMatrix(before, z.M, z.N)
    requires forall r, c | 0 <= r < z.M && 0 <= c < z.N && Owner(z, r, c) == (gx, gy) ::
        out[r, c] == After(ops, z, a, b, before[r][c], r, c, kc0)
    modifies out
    ensures forall r, c | 0 <= r < z.M && 0 <= c < z.N ::
              out[r, c] == if Owner(z, r, c) == (gx, gy) then After(ops, z, a, b, before[r][c], r, c, kc1)
                  else old(out[r, c])
  {
    var r0, pg, np := gx * ROWS, gy * z.PC, z.N / PANEL;
    forall r, c | 0 <= r < z.M && 0 <= c < z.N
      ensures Owner(z, r, c) == (gx, gy) <==> r0 <= r < r0 + ROWS && pg <= c / PANEL < pg + z.PC
    {
      OwnerRange(z, gx, gy, r, c);
    }
    if r0 >= z.M || pg >= np {
      return;
    }
    var pe := if pg + z.PC < np then pg + z.PC else np;
    var p := pg;
    while p < pe
      invariant pg <= p <= pe
      invariant forall r, c | 0 <= r < z.M && 0 <= c < z.N ::
                  out[r, c] == if r0 <= r < r0 + ROWS && pg <= c / PANEL < p
                      then After(ops, z, a, b, before[r][c], r, c, kc1) else old(out[r, c])
    {
      PanelFits(z.N, p);
      if r0 + ROWS > z.M {
        if kc0 == 0 {
          RaggedPanel(ops, z, a, b, bp, out, r0, p);
        }
      } else {
        FullPanel(ops, z, a, b, bp, out, r0, p, kc0, kc1);
      }
      p := p + 1;
    }
  }

  // ----- sweeps ---------------------------------------------------------------------------------------------

  /** Every work group of the grid, once, in some order. */
  predicate IsGrid(z: Sizes, order: seq<(nat, nat)>) {
    && (forall x, y | 0 <= x < y < |order| :: order[x] != order[y])
    && forall gx: nat, gy: nat | gx < z.RowBlocks() && gy < z.PanelGroups() :: (gx, gy) in order
  }

  lemma OwnerInGrid(z: Sizes, r: nat, c: nat)
    requires z.N % PANEL == 0 && r < z.M && c < z.N
    ensures Owner(z, r, c).0 < z.RowBlocks() && Owner(z, r, c).1 < z.PanelGroups()
  {
    var p, np := c / PANEL, z.N / PANEL;
    DivMonotone(p + z.PC, np + z.PC - 1, z.PC);
    assert (p + z.PC) / z.PC == p / z.PC + 1 by {
      assert p == p / z.PC * z.PC + p % z.PC;
      assert (p / z.PC + 1) * z.PC == p / z.PC * z.PC + z.PC;
      DivAtLeast(p + z.PC, p / z.PC + 1, z.PC);
      assert (p / z.PC + 2) * z.PC == p / z.PC * z.PC + z.PC + z.PC;
      DivBelow(p + z.PC, p / z.PC + 2, z.PC);
    }
  }

  ghost predicate AllAfter<T(!new)>(ops: Scalars<T>, z: Sizes, a: Matrix<T>, b: Matrix<T>, out: array2<T>,
      before: Matrix<T>, kc: nat)
    requires Fits(z, out) && IsMatrix(before, z.M, z.N) && IsMatrix(a, z.M, z.K) && IsMatrix(b, z.K, z.N) && kc <= z.K
    reads out
  {
    forall r, c | 0 <= r < z.M && 0 <= c < z.N :: out[r, c] == After(ops, z, a, b, before[r][c], r, c, kc)
  }

  /** One sweep over the whole grid, its work groups in any order. */
  method Sweep<T(0, !new)>(ops: Scalars<T>, z: Sizes, a: Matrix<T>, ghost b: Matrix<T>, bp: seq<T>, out: array2<T>,
                           kc0: nat, kc1: nat, order: seq<(nat, nat)>, ghost before: Matrix<T>)
    requires Operands(z, a, b, bp) && Fits(z, out) && kc0 < kc1 <= z.K && IsMatrix(before, z.M, z.N) && IsGrid(z, order)
    requires AllAfter(ops, z, a, b, out, before, kc0)
    modifies out
    ensures AllAfter(ops, z, a, b, out, before, kc1)
  {
    var x := 0;
    while x < |order|
      invariant 0 <= x <= |order|
      invariant forall r, c | 0 <= r < z.M && 0 <= c < z.N ::
                  out[r, c] == After(ops, z, a, b, before[r][c], r, c, if Owner(z, r, c) in order[..x] then kc1
                      else kc0)
    {
      assert order[x] !in order[..x];
      assert order[..x + 1] == order[..x] + [order[x]];
      WorkGroup(ops, z, a, b, bp, out, order[x].0, order[x].1, kc0, kc1, before);
      x := x + 1;
    }
    assert order[..x] == order;
    forall r, c | 0 <= r < z.M && 0 <= c < z.N
      ensures Owner(z, r, c) in order
    {
      OwnerInGrid(z, r, c);
    }
  }

  /** Packs B and sweeps over K in steps of `KC`. Every cell becomes the full dot product as soon
      as there is at least one term; with K = 0 no sweep runs and the result keeps what was in
      it. */
  method Run2D<T(0, !new)>(ops: Scalars<T>, z: Sizes, a: Matrix<T>, b: Matrix<T>, bp: array<T>, out: array2<T>, KC: pos,
      orders: nat -> seq<(nat, nat)>)
    requires z.N % PANEL == 0 && IsMatrix(a, z.M, z.K) && |b| == z.K && IsMatrix(b, |b|, z.N) && Fits(z, out)
    requires bp.Length == z.N / PANEL * |b| * PANEL && forall s: nat :: IsGrid(z, orders(s))
    modifies bp, out
    ensures forall r, c | 0 <= r < z.M && 0 <= c < z.N ::
              out[r, c] == if z.K > 0 then Dot(ops, a, b, r, c, z.K) else old(out[r, c])
  {
    ghost var before := seq(z.M, r requires 0 <= r < z.M reads out =>
        seq(z.N, c requires 0 <= c < z.N reads out => out[r, c]));
    PackB(b, z.N, bp);
    var kc, s := 0, 0;
    while kc < z.K
      invariant 0 <= kc <= z.K && IsPacked(bp[..], b, z.N)
      invariant AllAfter(ops, z, a, b, out, before, kc)
    {
      var kc1 := if kc + KC < z.K then kc + KC else z.K;
      Sweep(ops, z, a, b, bp[..], out, kc, kc1, orders(s), before);
      kc, s := kc1, s + 1;
    }
  }

  // ----- square tiles with zero padding -----------------------------------------------------------------------

  const TILE := 64
  const BK := 16

  /** Output tile `tile` of the grid of TILE x TILE tiles. */
  function TileRow(N: nat, tile: nat): nat requires N > 0 { tile / ((N + TILE - 1) / TILE) * TILE }
  function TileCol(N: nat, tile: nat): nat requires N > 0 { tile % ((N + TILE - 1) / TILE) * TILE }

  /** One value of an operand, zero outside it. */
  function Padded<T>(ops: Scalars<T>, m: Matrix<T>, rows: nat, cols: nat, r: nat, c: nat): T
    requires IsMatrix(m, rows, cols)
  {
    if r < rows && c < cols then m[r][c] else ops.zero
  }

  function Window<T>(ops: Scalars<T>, m: Matrix<T>, rows: nat, cols: nat, r0: nat, c0: nat, h: nat,
                     w: nat): (r: Matrix<T>)
    requires IsMatrix(m, rows, cols)
    ensures IsMatrix(r, h, w)
    ensures forall i, j | 0 <= i < h && 0 <= j < w :: r[i][j] == Padded(ops, m, rows, cols, r0 + i, c0 + j)
  {
    seq(h, i requires 0 <= i < h => seq(w, j requires 0 <= j < w => Padded(ops, m, rows, cols, r0 + i, c0 + j)))
  }

  /** Adding a padded term changes nothing. */
  ghost predicate ZeroAbsorbs<T(!new)>(ops: Scalars<T>) {
    forall acc :: ops.mad(ops.zero, ops.zero, acc) == acc
  }

  ghost predicate TileAt<T(!new)>(ops: Scalars<T>, z: Sizes, a: Matrix<T>, b: Matrix<T>, acc: Matrix<T>, row0: nat,
      col0: nat, k: nat)
    requires IsMatrix(a, z.M, z.K) && IsMatrix(b, z.K, z.N)
  {
    && IsMatrix(acc, TILE, TILE)
    && forall i, j | 0 <= i < TILE && 0 <= j < TILE && row0 + i < z.M && col0 + j < z.N ::
         acc[i][j] == Dot(ops, a, b, row0 + i, col0 + j, if k < z.K then k else z.K)
  }

  function OuterStep<T>(ops: Scalars<T>, acc: Matrix<T>, at: Matrix<T>, bt: Matrix<T>, kk: nat): (r: Matrix<T>)
    requires IsMatrix(acc, TILE, TILE) && IsMatrix(at, TILE, BK) && IsMatrix(bt, BK, TILE) && kk < BK
    ensures IsMatrix(r, TILE, TILE)
    ensures forall i, j | 0 <= i < TILE && 0 <= j < TILE :: r[i][j] == ops.mad(at[i][kk], bt[kk][j], acc[i][j])
  {
    seq(TILE, i requires 0 <= i < TILE =>
        seq(TILE, j requires 0 <= j < TILE => ops.mad(at[i][kk], bt[kk][j], acc[i][j])))
  }

  lemma OuterStepAt<T(!new)>(ops: Scalars<T>, z: Sizes, a: Matrix<T>, b: Matrix<T>, acc: Matrix<T>, row0: nat,
      col0: nat, k0: nat, kk: nat)
    requires IsMatrix(a, z.M, z.K) && IsMatrix(b, z.K, z.N) && ZeroAbsorbs(ops) && kk < BK
    requires TileAt(ops, z, a, b, acc, row0, col0, k0 + kk)
    ensures var at, bt := Window(ops, a, z.M, z.K, row0, k0, TILE, BK), Window(ops, b, z.K, z.N, k0, col0, BK, TILE);
            TileAt(ops, z, a, b, OuterStep(ops, acc, at, bt, kk), row0, col0, k0 + kk + 1)
  {
    var at, bt := Window(ops, a, z.M, z.K, row0, k0, TILE, BK), Window(ops, b, z.K, z.N, k0, col0, BK, TILE);
    var next := OuterStep(ops, acc, at, bt, kk);
    forall i, j | 0 <= i < TILE && 0 <= j < TILE && row0 + i < z.M && col0 + j < z.N
      ensures next[i][j] == Dot(ops, a, b, row0 + i, col0 + j, if k0 + kk + 1 < z.K then k0 + kk + 1 else z.K)
    {
      assert next[i][j] == ops.mad(at[i][kk], bt[kk][j], acc[i][j]);
      if k0 + kk >= z.K {
        assert at[i][kk] == ops.zero && bt[kk][j] == ops.zero;
      }
    }
  }

  /** One output tile: K in padded blocks of 16, then the cells inside the matrix are stored. */
  method MmaTile<T(0, !new)>(ops: Scalars<T>, z: Sizes, a: Matrix<T>, b: Matrix<T>, out: array2<T>, tile: nat)
    requires IsMatrix(a, z.M, z.K) && IsMatrix(b, z.K, z.N) && Fits(z, out) && ZeroAbsorbs(ops) && z.N > 0
    modifies out
    ensures forall r, c | 0 <= r < z.M && 0 <= c < z.N ::
              out[r, c] == if InTile(z.N, tile, r, c) then Dot(ops, a, b, r, c, z.K) else old(out[r, c])
  {
    hide OuterStep;
    var row0, col0 := TileRow(z.N, tile), TileCol(z.N, tile);
    var acc := seq(TILE, i => seq(TILE, j => ops.zero));
    var k0 := 0;
    while k0 < z.K
      modifies {}
      invariant 0 <= k0 && TileAt(ops, z, a, b, acc, row0, col0, k0)
    {
      var at := Window(ops, a, z.M, z.K, row0, k0, TILE, BK);
      var bt := Window(ops, b, z.K, z.N, k0, col0, BK, TILE);
      var kk := 0;
      while kk < BK
        modifies {}
        invariant 0 <= kk <= BK && TileAt(ops, z, a, b, acc, row0, col0, k0 + kk)
      {
        OuterStepAt(ops, z, a, b, acc, row0, col0, k0, kk);
        acc := OuterStep(ops, acc, at, bt, kk);
        kk := kk + 1;
      }
      k0 := k0 + BK;
    }
    forall r, c | 0 <= r < z.M && 0 <= c < z.N && InTile(z.N, tile, r, c) {
      out[r, c] := acc[r - row0][c - col0];
    }
    forall r, c | 0 <= r < z.M && 0 <= c < z.N
      ensures out[r, c] == if InTile(z.N, tile, r, c) then Dot(ops, a, b, r, c, z.K) else old(out[r, c])
    {
      if InTile(z.N, tile, r, c) {
        var i, j := r - row0, c - col0;
        assert out[r, c] == acc[i][j];
        assert acc[i][j] == Dot(ops, a, b, row0 + i, col0 + j, z.K);
      }
    }
  }

  predicate InTile(N: nat, tile: nat, r: nat, c: nat)
    requires N > 0
  {
    TileRow(N, tile) <= r < TileRow(N, tile) + TILE && TileCol(N, tile) <= c < TileCol(N, tile) + TILE
  }

  /** All tiles of the task, in any order (and even more than once). */
  method MmaAll<T(0, !new)>(ops: Scalars<T>, z: Sizes, a: Matrix<T>, b: Matrix<T>, out: array2<T>, tiles: seq<nat>)
    requires IsMatrix(a, z.M, z.K) && IsMatrix(b, z.K, z.N) && Fits(z, out) && ZeroAbsorbs(ops) && z.N > 0
    requires forall t: nat | t < (z.M + TILE - 1) / TILE * ((z.N + TILE - 1) / TILE) :: t in tiles
    modifies out
    ensures forall r, c | 0 <= r < z.M && 0 <= c < z.N :: out[r, c] == Dot(ops, a, b, r, c, z.K)
  {
    var x := 0;
    while x < |tiles|
      invariant 0 <= x <= |tiles|
      invariant forall r, c, y | 0 <= r < z.M && 0 <= c < z.N && 0 <= y < x && InTile(z.N, tiles[y], r, c) ::
          out[r, c] == Dot(ops, a, b, r, c, z.K)
    {
      MmaTile(ops, z, a, b, out, tiles[x]);
      x := x + 1;
    }
    forall r, c | 0 <= r < z.M && 0 <= c < z.N
      ensures out[r, c] == Dot(ops, a, b, r, c, z.K)
    {
      CoveringTile(z.M, z.N, r, c);
      var t := r / TILE * ((z.N + TILE - 1) / TILE) + c / TILE;
      assert t in tiles;
      var y :| 0 <= y < |tiles| && tiles[y] == t;
    }
  }

  /** The tile that holds a cell. */
  lemma CoveringTile(M: nat, N: nat, r: nat, c: nat)
    requires r < M && c < N
    ensures var across := (N + TILE - 1) / TILE;
            var t := r / TILE * across + c / TILE;
            t < (M + TILE - 1) / TILE * across && InTile(N, t, r, c)
  {
    var across := (N + TILE - 1) / TILE;
    var t := r / TILE * across + c / TILE;
    assert c / TILE < across;
    MulMonotone(r / TILE + 1, (M + TILE - 1) / TILE, across);
    assert (r / TILE + 1) * across == r / TILE * across + across;
    DivAtLeast(t, r / TILE, across);
    DivBelow(t, r / TILE + 1, across);
    assert t == t / across * across + t % across;
  }
}
