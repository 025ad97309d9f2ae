/** The tables the random generators fill, as functions of the draws of the
    random stream: entry (i, j) of an r x r table is the Ordinal(i, j, r)-th
    entry drawn, a slot value taking d consecutive draws and a block taking
    d * d draws (cell (u, v) of a block being its Ordinal(u, v, d)-th draw). */
module Tables {
  import opened Ring
  import opened RowMajor

  /** What a seeded random stream yields, draw by draw. */
  type Draws = nat -> Coeff

  /** What random(x, d) stores in x when the stream is at position `at`. */
  function PolyAt(draws: Draws, at: nat, d: nat): (x: Poly)
    ensures |x| == d
  {
    seq(d, (t: nat) => draws(at + t))
  }

  /** What SetDims(d, d) followed by random() on each cell, row by row, stores
      when the stream is at position `at`. */
  function BlockAt(draws: Draws, at: nat, d: nat): (b: Block)
    ensures BlockShaped(b, d)
  {
    seq(d, (u: nat) => seq(d, (v: nat) => draws(at + Ordinal(u, v, d))))
  }

  predicate PolySquareShaped(t: seq<seq<Poly>>, r: nat, d: nat) {
    |t| == r && forall i | 0 <= i < r :: |t[i]| == r && forall j | 0 <= j < r :: |t[i][j]| == d
  }

  predicate BlockSquareShaped(t: seq<seq<Block>>, r: nat, d: nat) {
    |t| == r && forall i | 0 <= i < r :: |t[i]| == r && forall j | 0 <= j < r :: BlockShaped(t[i][j], d)
  }

  predicate PolyLayersShaped(t: seq<seq<seq<Poly>>>, l: nat, r: nat, d: nat) {
    |t| == l && forall k | 0 <= k < l :: PolySquareShaped(t[k], r, d)
  }

  predicate BlockLayersShaped(t: seq<seq<seq<Block>>>, l: nat, r: nat, d: nat) {
    |t| == l && forall k | 0 <= k < l :: BlockSquareShaped(t[k], r, d)
  }

  /** Where entry (i, j) of an r x r table of entries of `len` draws each
      starts, when the table is filled row by row from position `at`. */
  function EntryStart(at: nat, i: nat, j: nat, r: nat, len: nat): nat {
    at + Ordinal(i, j, r) * len
  }

  /** r rows of r slot values, filled row by row from position `at`. */
  function PolySquare(draws: Draws, at: nat, r: nat, d: nat): (t: seq<seq<Poly>>)
    ensures PolySquareShaped(t, r, d)
  {
    seq(r, (i: nat) => seq(r, (j: nat) => PolyAt(draws, at + Ordinal(i, j, r) * d, d)))
  }

  /** r rows of r blocks, filled row by row from position `at`. */
  function BlockSquare(draws: Draws, at: nat, r: nat, d: nat): (t: seq<seq<Block>>)
    ensures BlockSquareShaped(t, r, d)
  {
    seq(r, (i: nat) => seq(r, (j: nat) => BlockAt(draws, at + Ordinal(i, j, r) * (d * d), d)))
  }

  /** l layers of r x r slot values, filled layer by layer from position `at`. */
  function PolyLayers(draws: Draws, at: nat, l: nat, r: nat, d: nat): (t: seq<seq<seq<Poly>>>)
    ensures PolyLayersShaped(t, l, r, d)
  {
    seq(l, (k: nat) => PolySquare(draws, at + k * (r * r * d), r, d))
  }

  /** l layers of r x r blocks, filled layer by layer from position `at`. */
  function BlockLayers(draws: Draws, at: nat, l: nat, r: nat, d: nat): (t: seq<seq<seq<Block>>>)
    ensures BlockLayersShaped(t, l, r, d)
  {
    seq(l, (k: nat) => BlockSquare(draws, at + k * (r * r * (d * d)), r, d))
  }

  /** Entry (k, i, j) of a layered table is the ((k * r + i) * r + j)-th entry
      drawn: the layers are consumed in row-major order over (k, i, j). */
  lemma {:induction false} PolyLayersEntry(draws: Draws, at: nat, l: nat, r: nat, d: nat, k: nat, i: nat, j: nat)
    requires k < l && i < r && j < r
    ensures PolyLayers(draws, at, l, r, d)[k][i][j]
         == PolyAt(draws, at + Ordinal(Ordinal(k, i, r), j, r) * d, d)
  {
    LayerOffset(k, i, j, r, d);
  }

  lemma {:induction false} BlockLayersEntry(draws: Draws, at: nat, l: nat, r: nat, d: nat, k: nat, i: nat, j: nat)
    requires k < l && i < r && j < r
    ensures BlockLayers(draws, at, l, r, d)[k][i][j]
         == BlockAt(draws, at + Ordinal(Ordinal(k, i, r), j, r) * (d * d), d)
  {
    LayerOffset(k, i, j, r, d * d);
  }

  lemma {:induction false} LayerOffset(k: nat, i: nat, j: nat, r: nat, w: nat)
    ensures k * (r * r * w) + Ordinal(i, j, r) * w == Ordinal(Ordinal(k, i, r), j, r) * w
  {
    calc {
      Ordinal(Ordinal(k, i, r), j, r) * w;
      ((k * r + i) * r + j) * w;
      (k * r * r) * w + (i * r + j) * w;
      k * (r * r * w) + Ordinal(i, j, r) * w;
    }
  }

  /** Cell (u, v) of block (i, j) is the draw at the row-major position of
      (i, j, u, v): blocks are consumed cell by cell, row by row. */
  lemma {:induction false} BlockSquareCell(draws: Draws, at: nat, r: nat, d: nat, i: nat, j: nat, u: nat, v: nat)
    requires i < r && j < r && u < d && v < d
    ensures BlockSquare(draws, at, r, d)[i][j][u][v]
         == draws(at + Ordinal(Ordinal(Ordinal(i, j, r), u, d), v, d))
  {
    var e := Ordinal(i, j, r);
    assert BlockSquare(draws, at, r, d)[i][j] == BlockAt(draws, at + e * (d * d), d);
    BlockCellOffset(e, u, v, d);
  }

  lemma {:induction false} BlockCellOffset(e: nat, u: nat, v: nat, d: nat)
    ensures e * (d * d) + Ordinal(u, v, d) == Ordinal(Ordinal(e, u, d), v, d)
  {
    calc {
      e * (d * d) + Ordinal(u, v, d);
      (e * d + u) * d + v;
      Ordinal(Ordinal(e, u, d), v, d);
    }
  }

  /** The `len` draws from position `at` on are all zero. */
  predicate DrawsZero(draws: Draws, at: nat, len: nat) {
    forall p: nat | at <= p < at + len :: draws(p) == 0
  }

  /** A drawn slot value is zero exactly when its d draws are all zero. */
  lemma {:induction false} PolyAtZeroIff(draws: Draws, at: nat, d: nat)
    ensures IsZeroPoly(PolyAt(draws, at, d)) <==> DrawsZero(draws, at, d)
  {
    var x := PolyAt(draws, at, d);
    if IsZeroPoly(x) {
      forall p: nat | at <= p < at + d ensures draws(p) == 0 {
        assert x[p - at] == draws(p);
      }
    }
  }

  /** A drawn block is zero exactly when its d * d draws are all zero. */
  lemma {:induction false} BlockAtZeroIff(draws: Draws, at: nat, d: nat)
    ensures IsZeroBlock(BlockAt(draws, at, d)) <==> DrawsZero(draws, at, d * d)
  {
    var b := BlockAt(draws, at, d);
    if IsZeroBlock(b) {
      forall p: nat | at <= p < at + d * d ensures draws(p) == 0 {
        var u, v := CellAt(p - at, d, d);
        assert b[u][v] == draws(p);
      }
    } else {
      var u, v :| 0 <= u < |b| && 0 <= v < |b[u]| && b[u][v] != 0;
      OrdinalBound(u, v, d, d);
      assert draws(at + Ordinal(u, v, d)) != 0;
    }
  }

  /** The tables drawn from two different stream positions need not agree:
      with the GF(2) stream whose first draw is 1 and all later draws 0, an
      n x n table drawn at position 0 and one drawn right after it differ. */
  lemma {:induction false} SuccessiveSquaresDiffer(n: nat, d: nat)
    requires n > 0 && d > 0
    ensures var firstOne := (p: nat) => if p == 0 then 1 else 0;
      PolySquare(firstOne, 0, n, d) != PolySquare(firstOne, n * n * d, n, d)
  {
    var firstOne := (p: nat) => if p == 0 then 1 else 0;
    var first := PolySquare(firstOne, 0, n, d);
    var second := PolySquare(firstOne, n * n * d, n, d);
    MulMonotone(1, n * n, d);
    MulMonotone(1, n, n);
    assert first[0][0][0] == 1;
    assert second[0][0][0] == 0;
  }

  /** Two different entries of an r x r table of entries of `len` draws each
      take disjoint stretches of the stream: one ends at or before the
      other starts, so no draw goes into two entries. */
  lemma {:induction false} EntryRangesDisjoint(at: nat, i: nat, j: nat, i': nat, j': nat, r: nat, len: nat)
    requires j < r && j' < r && (i, j) != (i', j')
    ensures EntryStart(at, i, j, r, len) + len <= EntryStart(at, i', j', r, len)
         || EntryStart(at, i', j', r, len) + len <= EntryStart(at, i, j, r, len)
  {
    var o, o' := Ordinal(i, j, r), Ordinal(i', j', r);
    if o == o' {
      OrdinalInjective(i, j, i', j', r);
      assert false;
    } else if o < o' {
      MulMonotone(o + 1, o', len);
    } else {
      MulMonotone(o' + 1, o, len);
    }
  }
}
