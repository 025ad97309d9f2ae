/** The six random test-matrix generators and their build functions.
    A generator's table is filled once, by its constructor, and only read
    afterwards, so the table and everything else a generator holds are
    constant fields. The dimension-local generators (RandomMatrix,
    RandomMultiMatrix, RandomBlockMatrix, RandomMultiBlockMatrix) push a
    new random stream, seed it with 123 and draw from it, leaving the
    ambient stream as it was; the full generators (RandomFullMatrix,
    RandomFullBlockMatrix) draw from the ambient stream where it stands. */
module RandomMatrices {
  import opened Ring
  import opened RowMajor
  import opened Tables
  import opened Random
  import opened Hypercube

  /** The template argument: PA_GF2 or PA_zz_p. */
  datatype Field = GF2 | Zzp

  /** The outcome of get(out, i, j[, k]): the returned "is zero" flag and
      the value of `out` afterwards. */
  datatype GetResult<E> = GetResult(isZero: bool, out: E)

  /** The seed given to SetSeed by every dimension-local generator. */
  const SEED: int := 123

  /** The template argument a supported tag selects in the build functions. */
  function FieldOf(tag: FieldTag): Field
    requires !tag.OtherTag?
  {
    if tag == GF2Tag then GF2 else Zzp
  }

  /** One D x D table of slot values, the same for every copy of dimension `dim`. */
  class RandomMatrix {
    const field: Field
    const ea: EncryptedArray
    const dim: int
    const data: seq<seq<Poly>>

    predicate Valid() {
      0 <= dim < |ea.dimSizes| && PolySquareShaped(data, SizeOfDimension(ea, dim), ea.degree)
    }

    constructor (field: Field, ea: EncryptedArray, dim: int, rng: RandomStream)
      requires 0 <= dim < |ea.dimSizes|
      ensures Valid()
      ensures this.field == field && this.ea == ea && GetDim() == dim && !MultipleTransforms()
      ensures data == PolySquare(rng.seeded(SEED), 0, SizeOfDimension(ea, dim), ea.degree)
    {
      var D := SizeOfDimension(ea, dim);
      var pushed := new RandomStream(rng.seeded, SEED);
      var table := RandomPolySquare(pushed, D, ea.degree);
      this.field, this.ea, this.dim, this.data := field, ea, dim, table;
    }

    /** multipleTransforms(): false, a single D x D table serving every
        copy of the dimension. */
    function MultipleTransforms(): (r: bool)
      requires Valid()
      ensures !r && |data| == SizeOfDimension(ea, dim)
    {
      false
    }

    /** getDim(): the dimension whose size the table has. */
    function GetDim(): (r: int)
      requires Valid()
      ensures 0 <= r < |ea.dimSizes| && |data| == SizeOfDimension(ea, r)
    {
      dim
    }

    /** get(out, i, j, k); k plays no part. */
    function Get(out: Poly, i: int, j: int, k: int): (r: GetResult<Poly>)
      requires Valid()
      requires 0 <= i < SizeOfDimension(ea, dim) && 0 <= j < SizeOfDimension(ea, dim)
      ensures r.isZero <==> IsZeroPoly(data[i][j])
      ensures r.out == if r.isZero then out else data[i][j]
    {
      if IsZeroPoly(data[i][j]) then GetResult(true, out) else GetResult(false, data[i][j])
    }
  }

  /** n / D independent D x D tables of slot values, one per copy of dimension `dim`. */
  class RandomMultiMatrix {
    const field: Field
    const ea: EncryptedArray
    const dim: int
    const data: seq<seq<seq<Poly>>>

    predicate Valid() {
      && 0 <= dim < |ea.dimSizes| && SizeOfDimension(ea, dim) > 0
      && PolyLayersShaped(data, Copies(ea, dim), SizeOfDimension(ea, dim), ea.degree)
    }

    constructor (field: Field, ea: EncryptedArray, dim: int, rng: RandomStream)
      requires 0 <= dim < |ea.dimSizes| && SizeOfDimension(ea, dim) > 0
      ensures Valid()
      ensures this.field == field && this.ea == ea && GetDim() == dim && MultipleTransforms()
      ensures data == PolyLayers(rng.seeded(SEED), 0, Copies(ea, dim), SizeOfDimension(ea, dim), ea.degree)
    {
      var n := Size(ea);
      var d := ea.degree;
      var D := SizeOfDimension(ea, dim);
      var pushed := new RandomStream(rng.seeded, SEED);
      ghost var draws := pushed.Current();
      var layers := [];
      for k := 0 to n / D
        invariant pushed.seed == SEED && pushed.pos == k * (D * D * d)
        invariant |layers| == k
        invariant forall k' | 0 <= k' < k :: layers[k'] == PolyLayers(draws, 0, n / D, D, d)[k']
      {
        var table := RandomPolySquare(pushed, D, d);
        layers := layers + [table];
      }
      this.field, this.ea, this.dim, this.data := field, ea, dim, layers;
    }

    /** multipleTransforms(): true, one D x D table for each of the n/D
        copies of the dimension. */
    function MultipleTransforms(): (r: bool)
      requires Valid()
      ensures r && |data| == Copies(ea, dim)
    {
      true
    }

    /** getDim(): the dimension whose copies the layers are. */
    function GetDim(): (r: int)
      requires Valid()
      ensures 0 <= r < |ea.dimSizes| && SizeOfDimension(ea, r) > 0 && |data| == Copies(ea, r)
    {
      dim
    }

    /** get(out, i, j, k): entry (i, j) of the table of copy k. */
    function Get(out: Poly, i: int, j: int, k: int): (r: GetResult<Poly>)
      requires Valid()
      requires 0 <= i < SizeOfDimension(ea, dim) && 0 <= j < SizeOfDimension(ea, dim)
      requires 0 <= k < Copies(ea, dim)
      ensures r.isZero <==> IsZeroPoly(data[k][i][j])
      ensures r.out == if r.isZero then out else data[k][i][j]
    {
      if IsZeroPoly(data[k][i][j]) then GetResult(true, out) else GetResult(false, data[k][i][j])
    }
  }

  /** One D x D table of d x d blocks, the same for every copy of dimension `dim`. */
  class RandomBlockMatrix {
    const field: Field
    const ea: EncryptedArray
    const dim: int
    const data: seq<seq<Block>>

    predicate Valid() {
      0 <= dim < |ea.dimSizes| && BlockSquareShaped(data, SizeOfDimension(ea, dim), ea.degree)
    }

    constructor (field: Field, ea: EncryptedArray, dim: int, rng: RandomStream)
      requires 0 <= dim < |ea.dimSizes|
      ensures Valid()
      ensures this.field == field && this.ea == ea && GetDim() == dim && !MultipleTransforms()
      ensures data == BlockSquare(rng.seeded(SEED), 0, SizeOfDimension(ea, dim), ea.degree)
    {
      var D := SizeOfDimension(ea, dim);
      var pushed := new RandomStream(rng.seeded, SEED);
      var table := RandomBlockSquare(pushed, D, ea.degree);
      this.field, this.ea, this.dim, this.data := field, ea, dim, table;
    }

    /** multipleTransforms(): false, a single D x D table serving every
        copy of the dimension. */
    function MultipleTransforms(): (r: bool)
      requires Valid()
      ensures !r && |data| == SizeOfDimension(ea, dim)
    {
      false
    }

    /** getDim(): the dimension whose size the table has. */
    function GetDim(): (r: int)
      requires Valid()
      ensures 0 <= r < |ea.dimSizes| && |data| == SizeOfDimension(ea, r)
    {
      dim
    }

    /** get(out, i, j, k); k plays no part. */
    function Get(out: Block, i: int, j: int, k: int): (r: GetResult<Block>)
      requires Valid()
      requires 0 <= i < SizeOfDimension(ea, dim) && 0 <= j < SizeOfDimension(ea, dim)
      ensures r.isZero <==> IsZeroBlock(data[i][j])
      ensures r.out == if r.isZero then out else data[i][j]
    {
      if IsZeroBlock(data[i][j]) then GetResult(true, out) else GetResult(false, data[i][j])
    }
  }

  /** n / D independent D x D tables of d x d blocks, one per copy of dimension `dim`. */
  class RandomMultiBlockMatrix {
    const field: Field
    const ea: EncryptedArray
    const dim: int
    const data: seq<seq<seq<Block>>>

    predicate Valid() {
      && 0 <= dim < |ea.dimSizes| && SizeOfDimension(ea, dim) > 0
      && BlockLayersShaped(data, Copies(ea, dim), SizeOfDimension(ea, dim), ea.degree)
    }

    constructor (field: Field, ea: EncryptedArray, dim: int, rng: RandomStream)
      requires 0 <= dim < |ea.dimSizes| && SizeOfDimension(ea, dim) > 0
      ensures Valid()
      ensures this.field == field && this.ea == ea && GetDim() == dim && MultipleTransforms()
      ensures data == BlockLayers(rng.seeded(SEED), 0, Copies(ea, dim), SizeOfDimension(ea, dim), ea.degree)
    {
      var n := Size(ea);
      var d := ea.degree;
      var D := SizeOfDimension(ea, dim);
      var pushed := new RandomStream(rng.seeded, SEED);
      ghost var draws := pushed.Current();
      var layers := [];
      for k := 0 to n / D
        invariant pushed.seed == SEED && pushed.pos == k * (D * D * (d * d))
        invariant |layers| == k
        invariant forall k' | 0 <= k' < k :: layers[k'] == BlockLayers(draws, 0, n / D, D, d)[k']
      {
        var table := RandomBlockSquare(pushed, D, d);
        layers := layers + [table];
      }
      this.field, this.ea, this.dim, this.data := field, ea, dim, layers;
    }

    /** multipleTransforms(): true, one D x D table for each of the n/D
        copies of the dimension. */
    function MultipleTransforms(): (r: bool)
      requires Valid()
      ensures r && |data| == Copies(ea, dim)
    {
      true
    }

    /** getDim(): the dimension whose copies the layers are. */
    function GetDim(): (r: int)
      requires Valid()
      ensures 0 <= r < |ea.dimSizes| && SizeOfDimension(ea, r) > 0 && |data| == Copies(ea, r)
    {
      dim
    }

    /** get(out, i, j, k): block (i, j) of the table of copy k. */
    function Get(out: Block, i: int, j: int, k: int): (r: GetResult<Block>)
      requires Valid()
      requires 0 <= i < SizeOfDimension(ea, dim) && 0 <= j < SizeOfDimension(ea, dim)
      requires 0 <= k < Copies(ea, dim)
      ensures r.isZero <==> IsZeroBlock(data[k][i][j])
      ensures r.out == if r.isZero then out else data[k][i][j]
    {
      if IsZeroBlock(data[k][i][j]) then GetResult(true, out) else GetResult(false, data[k][i][j])
    }
  }

  /** One n x n table of slot values over the whole slot space. */
  class RandomFullMatrix {
    const field: Field
    const ea: EncryptedArray
    const data: seq<seq<Poly>>

    predicate Valid() {
      PolySquareShaped(data, Size(ea), ea.degree)
    }

    /** Every entry is drawn: the zero-injection flag is always false. */
    constructor (field: Field, ea: EncryptedArray, rng: RandomStream)
      modifies rng
      ensures this.field == field && this.ea == ea && Valid()
      ensures rng.seed == old(rng.seed) && rng.pos == old(rng.pos) + Size(ea) * Size(ea) * ea.degree
      ensures data == PolySquare(rng.Current(), old(rng.pos), Size(ea), ea.degree)
    {
      var table := RandomPolySquare(rng, Size(ea), ea.degree);
      this.field, this.ea, this.data := field, ea, table;
    }

    /** get(out, i, j). */
    function Get(out: Poly, i: int, j: int): (r: GetResult<Poly>)
      requires Valid()
      requires 0 <= i < Size(ea) && 0 <= j < Size(ea)
      ensures r.isZero <==> IsZeroPoly(data[i][j])
      ensures r.out == if r.isZero then out else data[i][j]
    {
      if IsZeroPoly(data[i][j]) then GetResult(true, out) else GetResult(false, data[i][j])
    }
  }

  /** One n x n table of d x d blocks over the whole slot space. */
  class RandomFullBlockMatrix {
    const field: Field
    const ea: EncryptedArray
    const data: seq<seq<Block>>

    predicate Valid() {
      BlockSquareShaped(data, Size(ea), ea.degree)
    }

    /** Every block is drawn: the zero-injection flag is always false. */
    constructor (field: Field, ea: EncryptedArray, rng: RandomStream)
      modifies rng
      ensures this.field == field && this.ea == ea && Valid()
      ensures rng.seed == old(rng.seed)
      ensures rng.pos == old(rng.pos) + Size(ea) * Size(ea) * (ea.degree * ea.degree)
      ensures data == BlockSquare(rng.Current(), old(rng.pos), Size(ea), ea.degree)
    {
      var table := RandomBlockSquare(rng, Size(ea), ea.degree);
      this.field, this.ea, this.data := field, ea, table;
    }

    /** get(out, i, j). */
    function Get(out: Block, i: int, j: int): (r: GetResult<Block>)
      requires Valid()
      requires 0 <= i < Size(ea) && 0 <= j < Size(ea)
      ensures r.isZero <==> IsZeroBlock(data[i][j])
      ensures r.out == if r.isZero then out else data[i][j]
    {
      if IsZeroBlock(data[i][j]) then GetResult(true, out) else GetResult(false, data[i][j])
    }
  }

  // The build functions: the field tag selects the template argument, and
  // any other tag yields no generator.

  method BuildRandomMatrix(ea: EncryptedArray, dim: int, rng: RandomStream) returns (m: RandomMatrix?)
    requires !ea.tag.OtherTag? ==> 0 <= dim < |ea.dimSizes|
    ensures m == null <==> ea.tag.OtherTag?
    ensures m != null ==>
      && fresh(m) && m.field == FieldOf(ea.tag) && m.ea == ea && m.Valid() && m.GetDim() == dim
      && m.data == PolySquare(rng.seeded(SEED), 0, SizeOfDimension(ea, dim), ea.degree)
  {
    match ea.tag
    case GF2Tag => m := new RandomMatrix(GF2, ea, dim, rng);
    case ZzpTag => m := new RandomMatrix(Zzp, ea, dim, rng);
    case OtherTag(_) => m := null;
  }

  method BuildRandomMultiMatrix(ea: EncryptedArray, dim: int, rng: RandomStream) returns (m: RandomMultiMatrix?)
    requires !ea.tag.OtherTag? ==> 0 <= dim < |ea.dimSizes| && SizeOfDimension(ea, dim) > 0
    ensures m == null <==> ea.tag.OtherTag?
    ensures m != null ==>
      && fresh(m) && m.field == FieldOf(ea.tag) && m.ea == ea && m.Valid() && m.GetDim() == dim
      && m.data == PolyLayers(rng.seeded(SEED), 0, Copies(ea, dim), SizeOfDimension(ea, dim), ea.degree)
  {
    match ea.tag
    case GF2Tag => m := new RandomMultiMatrix(GF2, ea, dim, rng);
    case ZzpTag => m := new RandomMultiMatrix(Zzp, ea, dim, rng);
    case OtherTag(_) => m := null;
  }

  method BuildRandomBlockMatrix(ea: EncryptedArray, dim: int, rng: RandomStream) returns (m: RandomBlockMatrix?)
    requires !ea.tag.OtherTag? ==> 0 <= dim < |ea.dimSizes|
    ensures m == null <==> ea.tag.OtherTag?
    ensures m != null ==>
      && fresh(m) && m.field == FieldOf(ea.tag) && m.ea == ea && m.Valid() && m.GetDim() == dim
      && m.data == BlockSquare(rng.seeded(SEED), 0, SizeOfDimension(ea, dim), ea.degree)
  {
    match ea.tag
    case GF2Tag => m := new RandomBlockMatrix(GF2, ea, dim, rng);
    case ZzpTag => m := new RandomBlockMatrix(Zzp, ea, dim, rng);
    case OtherTag(_) => m := null;
  }

  method BuildRandomMultiBlockMatrix(ea: EncryptedArray, dim: int, rng: RandomStream) returns (m: RandomMultiBlockMatrix?)
    requires !ea.tag.OtherTag? ==> 0 <= dim < |ea.dimSizes| && SizeOfDimension(ea, dim) > 0
    ensures m == null <==> ea.tag.OtherTag?
    ensures m != null ==>
      && fresh(m) && m.field == FieldOf(ea.tag) && m.ea == ea && m.Valid() && m.GetDim() == dim
      && m.data == BlockLayers(rng.seeded(SEED), 0, Copies(ea, dim), SizeOfDimension(ea, dim), ea.degree)
  {
    match ea.tag
    case GF2Tag => m := new RandomMultiBlockMatrix(GF2, ea, dim, rng);
    case ZzpTag => m := new RandomMultiBlockMatrix(Zzp, ea, dim, rng);
    case OtherTag(_) => m := null;
  }

  method BuildRandomFullMatrix(ea: EncryptedArray, rng: RandomStream) returns (m: RandomFullMatrix?)
    modifies rng
    ensures m == null <==> ea.tag.OtherTag?
    ensures rng.seed == old(rng.seed)
    ensures m == null ==> rng.pos == old(rng.pos)
    ensures m != null ==>
      && fresh(m) && m.field == FieldOf(ea.tag) && m.ea == ea && m.Valid()
      && rng.pos == old(rng.pos) + Size(ea) * Size(ea) * ea.degree
      && m.data == PolySquare(rng.Current(), old(rng.pos), Size(ea), ea.degree)
  {
    match ea.tag
    case GF2Tag => m := new RandomFullMatrix(GF2, ea, rng);
    case ZzpTag => m := new RandomFullMatrix(Zzp, ea, rng);
    case OtherTag(_) => m := null;
  }

  method BuildRandomFullBlockMatrix(ea: EncryptedArray, rng: RandomStream) returns (m: RandomFullBlockMatrix?)
    modifies rng
    ensures m == null <==> ea.tag.OtherTag?
    ensures rng.seed == old(rng.seed)
    ensures m == null ==> rng.pos == old(rng.pos)
    ensures m != null ==>
      && fresh(m) && m.field == FieldOf(ea.tag) && m.ea == ea && m.Valid()
      && rng.pos == old(rng.pos) + Size(ea) * Size(ea) * (ea.degree * ea.degree)
      && m.data == BlockSquare(rng.Current(), old(rng.pos), Size(ea), ea.degree)
  {
    match ea.tag
    case GF2Tag => m := new RandomFullBlockMatrix(GF2, ea, rng);
    case ZzpTag => m := new RandomFullBlockMatrix(Zzp, ea, rng);
    case OtherTag(_) => m := null;
  }

  // What get reports, in terms of the draws of the stream the table came from.

  /** `g` is what get reports for the slot value made of the d draws from
      position `at` on: "zero" exactly when those draws are all zero, and
      the slot value itself otherwise. */
  predicate ReportsPoly(g: GetResult<Poly>, draws: Draws, at: nat, d: nat) {
    && (g.isZero <==> DrawsZero(draws, at, d))
    && (!g.isZero ==> g.out == PolyAt(draws, at, d))
  }

  /** The same for a d x d block made of the d * d draws from `at` on. */
  predicate ReportsBlock(g: GetResult<Block>, draws: Draws, at: nat, d: nat) {
    && (g.isZero <==> DrawsZero(draws, at, d * d))
    && (!g.isZero ==> g.out == BlockAt(draws, at, d))
  }

  /** On a RandomMatrix built from the generator `seeded`, get(out, i, j, k)
      says "zero" exactly when the d draws of entry Ordinal(i, j, D) after seed
      123 are all zero, and otherwise hands out the slot value made of them. */
  lemma {:induction false} RandomMatrixGetDraws(m: RandomMatrix, seeded: int -> Draws, out: Poly, i: nat, j: nat, k: int)
    requires m.Valid() && i < SizeOfDimension(m.ea, m.dim) && j < SizeOfDimension(m.ea, m.dim)
    requires m.data == PolySquare(seeded(SEED), 0, SizeOfDimension(m.ea, m.dim), m.ea.degree)
    ensures ReportsPoly(m.Get(out, i, j, k), seeded(SEED), EntryStart(0, i, j, SizeOfDimension(m.ea, m.dim), m.ea.degree), m.ea.degree)
  {
    var at := EntryStart(0, i, j, SizeOfDimension(m.ea, m.dim), m.ea.degree);
    assert m.data[i][j] == PolyAt(seeded(SEED), at, m.ea.degree);
    PolyAtZeroIff(seeded(SEED), at, m.ea.degree);
  }

  /** On a RandomMultiMatrix built from `seeded`, entry (i, j) of copy k is
      the ((k * D + i) * D + j)-th slot value drawn after seed 123. */
  lemma {:induction false} RandomMultiMatrixGetDraws(m: RandomMultiMatrix, seeded: int -> Draws, out: Poly, i: nat, j: nat, k: nat)
    requires m.Valid() && i < SizeOfDimension(m.ea, m.dim) && j < SizeOfDimension(m.ea, m.dim)
    requires k < Copies(m.ea, m.dim)
    requires m.data == PolyLayers(seeded(SEED), 0, Copies(m.ea, m.dim), SizeOfDimension(m.ea, m.dim), m.ea.degree)
    ensures var D := SizeOfDimension(m.ea, m.dim);
      ReportsPoly(m.Get(out, i, j, k), seeded(SEED), EntryStart(0, Ordinal(k, i, D), j, D, m.ea.degree), m.ea.degree)
  {
    var D := SizeOfDimension(m.ea, m.dim);
    var at := EntryStart(0, Ordinal(k, i, D), j, D, m.ea.degree);
    PolyLayersEntry(seeded(SEED), 0, Copies(m.ea, m.dim), D, m.ea.degree, k, i, j);
    assert m.data[k][i][j] == PolyAt(seeded(SEED), at, m.ea.degree);
    PolyAtZeroIff(seeded(SEED), at, m.ea.degree);
  }

  /** On a RandomBlockMatrix built from `seeded`, get says "zero" exactly
      when the d * d draws of block Ordinal(i, j, D) after seed 123 are all zero. */
  lemma {:induction false} RandomBlockMatrixGetDraws(m: RandomBlockMatrix, seeded: int -> Draws, out: Block, i: nat, j: nat, k: int)
    requires m.Valid() && i < SizeOfDimension(m.ea, m.dim) && j < SizeOfDimension(m.ea, m.dim)
    requires m.data == BlockSquare(seeded(SEED), 0, SizeOfDimension(m.ea, m.dim), m.ea.degree)
    ensures ReportsBlock(m.Get(out, i, j, k), seeded(SEED), EntryStart(0, i, j, SizeOfDimension(m.ea, m.dim), m.ea.degree * m.ea.degree), m.ea.degree)
  {
    var d := m.ea.degree;
    var at := EntryStart(0, i, j, SizeOfDimension(m.ea, m.dim), d * d);
    assert m.data[i][j] == BlockAt(seeded(SEED), at, d);
    BlockAtZeroIff(seeded(SEED), at, d);
  }

  /** On a RandomMultiBlockMatrix built from `seeded`, block (i, j) of copy k
      is the ((k * D + i) * D + j)-th block drawn after seed 123. */
  lemma {:induction false} RandomMultiBlockMatrixGetDraws(m: RandomMultiBlockMatrix, seeded: int -> Draws, out: Block, i: nat, j: nat, k: nat)
    requires m.Valid() && i < SizeOfDimension(m.ea, m.dim) && j < SizeOfDimension(m.ea, m.dim)
    requires k < Copies(m.ea, m.dim)
    requires m.data == BlockLayers(seeded(SEED), 0, Copies(m.ea, m.dim), SizeOfDimension(m.ea, m.dim), m.ea.degree)
    ensures var D := SizeOfDimension(m.ea, m.dim);
      ReportsBlock(m.Get(out, i, j, k), seeded(SEED), EntryStart(0, Ordinal(k, i, D), j, D, m.ea.degree * m.ea.degree), m.ea.degree)
  {
    var D := SizeOfDimension(m.ea, m.dim);
    var d := m.ea.degree;
    var at := EntryStart(0, Ordinal(k, i, D), j, D, d * d);
    BlockLayersEntry(seeded(SEED), 0, Copies(m.ea, m.dim), D, d, k, i, j);
    assert m.data[k][i][j] == BlockAt(seeded(SEED), at, d);
    BlockAtZeroIff(seeded(SEED), at, d);
  }

  /** On a RandomFullMatrix drawn from position `start` of `draws`, get says
      "zero" exactly when the d draws of entry Ordinal(i, j, n) are all zero. */
  lemma {:induction false} RandomFullMatrixGetDraws(m: RandomFullMatrix, draws: Draws, start: nat, out: Poly, i: nat, j: nat)
    requires m.Valid() && i < Size(m.ea) && j < Size(m.ea)
    requires m.data == PolySquare(draws, start, Size(m.ea), m.ea.degree)
    ensures ReportsPoly(m.Get(out, i, j), draws, EntryStart(start, i, j, Size(m.ea), m.ea.degree), m.ea.degree)
  {
    var at := EntryStart(start, i, j, Size(m.ea), m.ea.degree);
    assert m.data[i][j] == PolyAt(draws, at, m.ea.degree);
    PolyAtZeroIff(draws, at, m.ea.degree);
  }

  /** On a RandomFullBlockMatrix drawn from position `start` of `draws`, get
      says "zero" exactly when the d * d draws of block Ordinal(i, j, n) are all zero. */
  lemma {:induction false} RandomFullBlockMatrixGetDraws(m: RandomFullBlockMatrix, draws: Draws, start: nat, out: Block, i: nat, j: nat)
    requires m.Valid() && i < Size(m.ea) && j < Size(m.ea)
    requires m.data == BlockSquare(draws, start, Size(m.ea), m.ea.degree)
    ensures ReportsBlock(m.Get(out, i, j), draws, EntryStart(start, i, j, Size(m.ea), m.ea.degree * m.ea.degree), m.ea.degree)
  {
    var d := m.ea.degree;
    var at := EntryStart(start, i, j, Size(m.ea), d * d);
    assert m.data[i][j] == BlockAt(draws, at, d);
    BlockAtZeroIff(draws, at, d);
  }

  // Determinism: a dimension-local generator depends on the array, the
  // dimension and the generator behind the stream, and not on where the
  // ambient stream stands; a full generator depends on exactly that.

  /** Two RandomMatrix generators built for the same array and dimension,
      over ambient streams in any states, answer every get alike. */
  method RandomMatrixDeterministic(field: Field, ea: EncryptedArray, dim: int, rng1: RandomStream, rng2: RandomStream)
    returns (a: RandomMatrix, b: RandomMatrix)
    requires 0 <= dim < |ea.dimSizes| && rng1.seeded == rng2.seeded
    ensures a != b
    ensures a.Valid() && b.Valid() && a.ea == b.ea == ea && a.dim == b.dim == dim && a.data == b.data
    ensures forall out, i, j, k | 0 <= i < SizeOfDimension(ea, dim) && 0 <= j < SizeOfDimension(ea, dim)
      :: a.Get(out, i, j, k) == b.Get(out, i, j, k)
  {
    a := new RandomMatrix(field, ea, dim, rng1);
    b := new RandomMatrix(field, ea, dim, rng2);
  }

  method RandomMultiMatrixDeterministic(field: Field, ea: EncryptedArray, dim: int, rng1: RandomStream, rng2: RandomStream)
    returns (a: RandomMultiMatrix, b: RandomMultiMatrix)
    requires 0 <= dim < |ea.dimSizes| && SizeOfDimension(ea, dim) > 0 && rng1.seeded == rng2.seeded
    ensures a != b
    ensures a.Valid() && b.Valid() && a.ea == b.ea == ea && a.dim == b.dim == dim && a.data == b.data
    ensures forall out, i, j, k | 0 <= i < SizeOfDimension(ea, dim) && 0 <= j < SizeOfDimension(ea, dim) && 0 <= k < Copies(ea, dim)
      :: a.Get(out, i, j, k) == b.Get(out, i, j, k)
  {
    a := new RandomMultiMatrix(field, ea, dim, rng1);
    b := new RandomMultiMatrix(field, ea, dim, rng2);
  }

  method RandomBlockMatrixDeterministic(field: Field, ea: EncryptedArray, dim: int, rng1: RandomStream, rng2: RandomStream)
    returns (a: RandomBlockMatrix, b: RandomBlockMatrix)
    requires 0 <= dim < |ea.dimSizes| && rng1.seeded == rng2.seeded
    ensures a != b
    ensures a.Valid() && b.Valid() && a.ea == b.ea == ea && a.dim == b.dim == dim && a.data == b.data
    ensures forall out, i, j, k | 0 <= i < SizeOfDimension(ea, dim) && 0 <= j < SizeOfDimension(ea, dim)
      :: a.Get(out, i, j, k) == b.Get(out, i, j, k)
  {
    a := new RandomBlockMatrix(field, ea, dim, rng1);
    b := new RandomBlockMatrix(field, ea, dim, rng2);
  }

  method RandomMultiBlockMatrixDeterministic(field: Field, ea: EncryptedArray, dim: int, rng1: RandomStream, rng2: RandomStream)
    returns (a: RandomMultiBlockMatrix, b: RandomMultiBlockMatrix)
    requires 0 <= dim < |ea.dimSizes| && SizeOfDimension(ea, dim) > 0 && rng1.seeded == rng2.seeded
    ensures a != b
    ensures a.Valid() && b.Valid() && a.ea == b.ea == ea && a.dim == b.dim == dim && a.data == b.data
    ensures forall out, i, j, k | 0 <= i < SizeOfDimension(ea, dim) && 0 <= j < SizeOfDimension(ea, dim) && 0 <= k < Copies(ea, dim)
      :: a.Get(out, i, j, k) == b.Get(out, i, j, k)
  {
    a := new RandomMultiBlockMatrix(field, ea, dim, rng1);
    b := new RandomMultiBlockMatrix(field, ea, dim, rng2);
  }

  /** Two RandomFullMatrix generators built one after the other read
      consecutive stretches of the ambient stream; by SuccessiveSquaresDiffer
      their tables need not agree. */
  method RandomFullMatricesFollowStream(field: Field, ea: EncryptedArray, rng: RandomStream)
    returns (a: RandomFullMatrix, b: RandomFullMatrix)
    modifies rng
    ensures rng.seed == old(rng.seed)
    ensures a.data == PolySquare(rng.Current(), old(rng.pos), Size(ea), ea.degree)
    ensures b.data == PolySquare(rng.Current(), old(rng.pos) + Size(ea) * Size(ea) * ea.degree, Size(ea), ea.degree)
  {
    a := new RandomFullMatrix(field, ea, rng);
    b := new RandomFullMatrix(field, ea, rng);
  }
}
