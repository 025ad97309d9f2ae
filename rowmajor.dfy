/** Row-major positions: cell (i, j) of a table whose rows have width w is the
    (i * w + j)-th cell read row by row. The random tables are filled in this
    order; these facts say that the cells of an h x w table take distinct
    positions, and that every position below h * w is taken by one of them. */
module RowMajor {

  function Ordinal(i: nat, j: nat, w: nat): nat {
    i * w + j
  }

  lemma {:induction false} MulMonotone(a: nat, b: nat, c: nat)
    requires a <= b
    ensures a * c <= b * c
  {
    var e: nat := b - a;
    assert b * c == a * c + e * c;
  }

  /** A cell inside an h x w table has a position below h * w. */
  lemma {:induction false} OrdinalBound(i: nat, j: nat, h: nat, w: nat)
    requires i < h && j < w
    ensures Ordinal(i, j, w) < h * w
  {
    assert Ordinal(i, j, w) < (i + 1) * w;
    MulMonotone(i + 1, h, w);
  }

  /** Two cells of rows of width w with the same position are the same cell. */
  lemma {:induction false} OrdinalInjective(i: nat, j: nat, i': nat, j': nat, w: nat)
    requires j < w && j' < w
    requires Ordinal(i, j, w) == Ordinal(i', j', w)
    ensures i == i' && j == j'
  {
    if i < i' {
      MulMonotone(i + 1, i', w);
      assert false;
    } else if i' < i {
      MulMonotone(i' + 1, i, w);
      assert false;
    }
  }

  /** Division and remainder by the width recover the cell of a position. */
  lemma {:induction false} OrdinalDecode(i: nat, j: nat, w: nat)
    requires j < w
    ensures Ordinal(i, j, w) / w == i && Ordinal(i, j, w) % w == j
  {
    var p := Ordinal(i, j, w);
    assert p == Ordinal(p / w, p % w, w);
    OrdinalInjective(i, j, p / w, p % w, w);
  }

  /** Every position below h * w is the position of a cell of the h x w table. */
  lemma {:induction false} DecodeInRange(p: nat, h: nat, w: nat)
    requires p < h * w
    ensures w > 0 && p / w < h && p % w < w && Ordinal(p / w, p % w, w) == p
  {
    if w == 0 {
      assert false;
    }
    if p / w >= h {
      MulMonotone(h, p / w, w);
      assert false;
    }
  }

  /** The cell of the h x w table at position p. */
  lemma {:induction false} CellAt(p: nat, h: nat, w: nat) returns (i: nat, j: nat)
    requires p < h * w
    ensures i < h && j < w && Ordinal(i, j, w) == p
  {
    DecodeInRange(p, h, w);
    i, j := p / w, p % w;
  }

  /** Moving one cell right moves the scaled position on by one scale. */
  lemma {:induction false} StepRight(i: nat, j: nat, w: nat, scale: nat)
    ensures Ordinal(i, j, w) * scale + scale == Ordinal(i, j + 1, w) * scale
  {
  }

  /** The cell past the end of a row is the first cell of the next row. */
  lemma {:induction false} StepDown(i: nat, w: nat, scale: nat)
    ensures Ordinal(i, w, w) * scale == Ordinal(i + 1, 0, w) * scale
  {
  }

  /** The cell past the last row is r * r cells on. */
  lemma {:induction false} SquareEnd(r: nat, scale: nat)
    ensures Ordinal(r, 0, r) * scale == r * r * scale
  {
  }
}
