/** NTL's random stream, and the loops of the generators that fill a table
    from it. The generator behind the stream (what it yields after SetSeed)
    is outside the model: it is the parameter `seeded`, which maps a seed to
    the sequence of draws that follow it. */
module Random {
  import opened Ring
  import opened RowMajor
  import opened Tables

  class RandomStream {
    const seeded: int -> Draws
    var seed: int
    var pos: nat

    /** The stream as SetSeed(seed) leaves it. */
    constructor (seeded: int -> Draws, seed: int)
      ensures this.seeded == seeded && this.seed == seed && pos == 0
    {
      this.seeded, this.seed, this.pos := seeded, seed, 0;
    }

    /** The draws of the current seed, from the first one on. */
    function Current(): Draws
      reads this
    {
      seeded(seed)
    }

    /** random(c) on a coefficient-ring element: the next draw. */
    method Random() returns (c: Coeff)
      modifies this
      ensures seed == old(seed) && pos == old(pos) + 1
      ensures c == Current()(old(pos))
    {
      c := seeded(seed)(pos);
      pos := pos + 1;
    }
  }

  /** random(x, d): a slot value of degree below d, one draw per coefficient. */
  method RandomPoly(rng: RandomStream, d: nat) returns (x: Poly)
    modifies rng
    ensures rng.seed == old(rng.seed) && rng.pos == old(rng.pos) + d
    ensures x == PolyAt(rng.Current(), old(rng.pos), d)
  {
    ghost var at := rng.pos;
    x := [];
    for t := 0 to d
      invariant rng.seed == old(rng.seed) && rng.pos == at + t
      invariant |x| == t && forall t' | 0 <= t' < t :: x[t'] == rng.Current()(at + t')
    {
      var c := rng.Random();
      x := x + [c];
    }
  }

  /** SetDims(d, d), then random() on every cell, row by row. */
  method RandomBlock(rng: RandomStream, d: nat) returns (b: Block)
    modifies rng
    ensures rng.seed == old(rng.seed) && rng.pos == old(rng.pos) + d * d
    ensures b == BlockAt(rng.Current(), old(rng.pos), d)
  {
    ghost var at := rng.pos;
    ghost var draws := rng.Current();
    b := [];
    for u := 0 to d
      invariant rng.seed == old(rng.seed) && rng.pos == at + Ordinal(u, 0, d)
      invariant |b| == u && forall u' | 0 <= u' < u :: b[u'] == BlockAt(draws, at, d)[u']
    {
      var row := [];
      for v := 0 to d
        invariant rng.seed == old(rng.seed) && rng.pos == at + Ordinal(u, v, d)
        invariant |row| == v && forall v' | 0 <= v' < v :: row[v'] == draws(at + Ordinal(u, v', d))
      {
        var c := rng.Random();
        row := row + [c];
      }
      b := b + [row];
      StepDown(u, d, 1);
    }
  }

  /** Resize to r rows of r entries and draw each entry, row by row. */
  method RandomPolySquare(rng: RandomStream, r: nat, d: nat) returns (t: seq<seq<Poly>>)
    modifies rng
    ensures rng.seed == old(rng.seed) && rng.pos == old(rng.pos) + r * r * d
    ensures t == PolySquare(rng.Current(), old(rng.pos), r, d)
  {
    ghost var at := rng.pos;
    ghost var draws := rng.Current();
    ghost var t0 := PolySquare(draws, at, r, d);
    t := [];
    for i := 0 to r
      invariant rng.seed == old(rng.seed) && rng.pos == EntryStart(at, i, 0, r, d)
      invariant |t| == i && forall i' | 0 <= i' < i :: t[i'] == t0[i']
    {
      var row := [];
      for j := 0 to r
        invariant rng.seed == old(rng.seed) && rng.pos == EntryStart(at, i, j, r, d)
        invariant |row| == j && forall j' | 0 <= j' < j :: row[j'] == t0[i][j']
      {
        var x := RandomPoly(rng, d);
        row := row + [x];
        StepRight(i, j, r, d);
      }
      t := t + [row];
      StepDown(i, r, d);
    }
    SquareEnd(r, d);
  }

  /** Resize to r rows of r blocks and draw each block, row by row. */
  method RandomBlockSquare(rng: RandomStream, r: nat, d: nat) returns (t: seq<seq<Block>>)
    modifies rng
    ensures rng.seed == old(rng.seed) && rng.pos == old(rng.pos) + r * r * (d * d)
    ensures t == BlockSquare(rng.Current(), old(rng.pos), r, d)
  {
    ghost var at := rng.pos;
    ghost var draws := rng.Current();
    ghost var t0 := BlockSquare(draws, at, r, d);
    t := [];
    for i := 0 to r
      invariant rng.seed == old(rng.seed) && rng.pos == EntryStart(at, i, 0, r, d * d)
      invariant |t| == i && forall i' | 0 <= i' < i :: t[i'] == t0[i']
    {
      var row := [];
      for j := 0 to r
        invariant rng.seed == old(rng.seed) && rng.pos == EntryStart(at, i, j, r, d * d)
        invariant |row| == j && forall j' | 0 <= j' < j :: row[j'] == t0[i][j']
      {
        var b := RandomBlock(rng, d);
        row := row + [b];
        StepRight(i, j, r, d * d);
      }
      t := t + [row];
      StepDown(i, r, d * d);
    }
    SquareEnd(r, d * d);
  }
}
