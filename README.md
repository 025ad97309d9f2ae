# Random test matrices and test dispatch of HElib's `tnewmatmul`

This project models the verifiable core of `src/tnewmatmul.cpp`, the HElib
test driver for homomorphic matrix multiplication:

- the six random test-matrix generators (`RandomMatrix`, `RandomMultiMatrix`,
  `RandomBlockMatrix`, `RandomMultiBlockMatrix`, `RandomFullMatrix`,
  `RandomFullBlockMatrix`): constructors that fill a nested table with nested
  loops from NTL's random stream, and `get`, `getDim` and `multipleTransforms`;
- the six `build*` functions that pick the template instantiation from the
  field tag of the `EncryptedArray`;
- the `ks_strategy` switch, the `minimal` flag and the `(full, block)` dispatch
  in `TestIt`.

## How the model is built

- **Ring elements** (`Ring`). An element of the coefficient ring, GF(2) or Z/p^rZ, is an `int`
  residue, zero being 0. A slot value `RX` is the list of its `d` coefficients.
  A block entry `mat_R` is a `d x d` list of rows. `IsZeroPoly` and
  `IsZeroBlock` are NTL's `IsZero`: every coefficient or cell is zero.
- **The random stream** (`Random.RandomStream`). The generator behind NTL's
  stream is a parameter, `seeded`. It maps a seed to the infinite sequence of
  draws that follows `SetSeed(seed)`. The stream object holds the current
  seed and position. One draw is one coefficient-ring element. `random(x, d)`
  takes `d` draws, one per coefficient, and `random(c)` takes one.
- **Scoped re-seeding.** In a dimension-local constructor, `RandomStreamPush`
  followed by `SetSeed(ZZ(123))` becomes a fresh local stream seeded with 123.
  The ambient stream is only read for its generator, so it ends as it began.
  This is how the model captures the restore when the push goes out of scope.
  The full constructors draw from the ambient stream and advance it.
- **Generators** (`RandomMatrices`). Each generator is a class. Its table is
  filled once by the constructor and only read afterwards, so every field is
  a `const`. Each constructor ensures that its table equals a function of the
  draws (`Tables.PolySquare`, `BlockSquare`, `PolyLayers`, `BlockLayers`).
  The loops in `Random` are proved against those functions.
- **Row-major order** (`RowMajor`, `Tables`). Entry `(k, i, j)` is the
  `(k*D + i)*D + j`-th entry drawn. Within a block, cell `(u, v)` is the
  block's `u*d + v`-th draw. `RowMajor` proves, for one level of cells, that
  the numbering maps the cells of an `h x w` table one-to-one onto the
  positions below `h*w`. `Tables.EntryRangesDisjoint` proves that two
  different entries of a table take disjoint stretches of draws.
- **The context** (`Hypercube`). An `EncryptedArray` is modelled by its tag,
  its degree `d` and its dimension sizes. `size()` is their product, and
  `sizeOfDimension(dim)` is the size at `dim`. The model proves that `D`
  divides `n`, so the `n/D` layers of a multi-transform table cover every
  slot.
- **The driver** (`TestDriver`). `ks_strategy` is a parameter instead of a
  global. The key-generation routines are labels. `TestIt` is modelled up to
  its call of `DoTest`: it returns the key plan, the `minimal` flag and the
  generator it built, or the error for a bad strategy.

Two facts about the program shape the model:

- Only the four dimension-local constructors re-seed with 123
  (src/tnewmatmul.cpp:48-49, 111-112, 183-184, 251-252). The full ones
  (312-330, 361-384) draw from the stream as it stands, so two full
  generators built one after the other read different draws
  (`RandomFullMatricesFollowStream`, `SuccessiveSquaresDiffer`).
- `buildRandomMultiMatrix` and `buildRandomMultiBlockMatrix` exist, but
  `TestIt` never calls them. Its dispatch reaches only the four builders the
  model lists in `TestDriver.Builder`.

## Model

| member | source | states |
|---|---|---|
| RowMajor.OrdinalBound | src/tnewmatmul.cpp:51-57 | a cell (i, j) of an h x w table filled row by row is drawn at a position below h*w |
| RowMajor.OrdinalInjective | src/tnewmatmul.cpp:114-123 | two cells drawn at the same row-major position are the same cell |
| RowMajor.OrdinalDecode | src/tnewmatmul.cpp:114-123 | division and remainder by the row width recover the cell from its position |
| RowMajor.DecodeInRange | src/tnewmatmul.cpp:114-123 | every position below h*w is the position of a cell of the h x w table, so every draw consumed lands in a cell |
| Tables.PolyAt | src/tnewmatmul.cpp:55 | the model's slot value: the d draws from `at`, in the order `random(x, d)` uses them |
| Tables.BlockAt | src/tnewmatmul.cpp:190-193 | after `SetDims(d, d)` and the u, v loop, a block has d rows of d cells |
| Tables.PolySquare | src/tnewmatmul.cpp:51-57 | a single-transform scalar table has D rows of D entries, each of d coefficients |
| Tables.BlockSquare | src/tnewmatmul.cpp:186-195 | a single-transform block table has D rows of D entries, each a d x d block |
| Tables.PolyLayers | src/tnewmatmul.cpp:114-123 | a multi-transform scalar table has n/D layers of D x D entries of d coefficients |
| Tables.BlockLayers | src/tnewmatmul.cpp:254-266 | a multi-transform block table has n/D layers of D x D blocks of size d x d |
| Tables.PolyLayersEntry | src/tnewmatmul.cpp:114-123 | entry (k, i, j) of a layered table is the ((k*D + i)*D + j)-th slot value drawn |
| Tables.BlockLayersEntry | src/tnewmatmul.cpp:254-266 | block (k, i, j) of a layered block table is the ((k*D + i)*D + j)-th block drawn |
| Tables.BlockSquareCell | src/tnewmatmul.cpp:187-194 | cell (u, v) of block (i, j) is the draw at the row-major position of (i, j, u, v) |
| Tables.PolyAtZeroIff | src/tnewmatmul.cpp:69 | a drawn slot value is zero exactly when all d of its draws are zero |
| Tables.BlockAtZeroIff | src/tnewmatmul.cpp:203 | a drawn block is zero exactly when all d*d of its draws are zero |
| Tables.EntryRangesDisjoint | src/tnewmatmul.cpp:51-57 | two different entries (i, j) and (i', j') of a table filled row by row take disjoint stretches of the stream: one ends at or before the other starts, so no draw goes into two entries |
| Tables.SuccessiveSquaresDiffer | src/tnewmatmul.cpp:312-330 | without re-seeding, n x n tables drawn at consecutive stream positions can differ: a GF(2) stream whose first draw is 1 and the rest 0 separates them |
| Random.RandomStream.constructor | src/tnewmatmul.cpp:48-49 | a pushed stream seeded with s yields the draws of seed s from the first one on |
| Random.RandomStream.Random | src/tnewmatmul.cpp:193 | `random(c)` returns the draw at the current position and advances the position by one |
| Random.RandomPoly | src/tnewmatmul.cpp:55 | `random(x, d)` stores the next d draws and advances the stream by d |
| Random.RandomBlock | src/tnewmatmul.cpp:190-193 | the u, v loop fills a d x d block with the next d*d draws in row-major order |
| Random.RandomPolySquare | src/tnewmatmul.cpp:51-57 | the i, j loops store `PolySquare` of the draws from the current position and advance the stream by D*D*d |
| Random.RandomBlockSquare | src/tnewmatmul.cpp:186-195 | the i, j loops store `BlockSquare` of the draws from the current position and advance the stream by D*D*d*d |
| Hypercube.ProductSplits | src/tnewmatmul.cpp:107-114 | the slot count n is D times the product of the other dimension sizes |
| Hypercube.Copies | src/tnewmatmul.cpp:114 | n/D times D is exactly n: the copies of a dimension hold every slot |
| RandomMatrices.RandomMatrix.constructor | src/tnewmatmul.cpp:40-62 | after re-seeding with 123 the table is `PolySquare` of those draws (D x D); `getDim()` is `dim` and `multipleTransforms()` is false; the ambient stream is untouched |
| RandomMatrices.RandomMatrix.Get | src/tnewmatmul.cpp:64-72 | requires i, j in [0, D); returns true exactly when entry (i, j) is zero and then leaves `out` as it was, otherwise returns false with `out` equal to the entry |
| RandomMatrices.RandomMultiMatrix.constructor | src/tnewmatmul.cpp:103-128 | after re-seeding with 123 the table is `PolyLayers` of those draws (n/D layers of D x D); `getDim()` is `dim` and `multipleTransforms()` is true |
| RandomMatrices.RandomMultiMatrix.Get | src/tnewmatmul.cpp:130-140 | requires i, j in [0, D) and k in [0, n/D); answers "zero" exactly for a zero entry (k, i, j), otherwise hands that entry out |
| RandomMatrices.RandomBlockMatrix.constructor | src/tnewmatmul.cpp:174-196 | after re-seeding with 123 the table is `BlockSquare` of those draws; `getDim()` is `dim` and `multipleTransforms()` is false |
| RandomMatrices.RandomBlockMatrix.Get | src/tnewmatmul.cpp:198-206 | requires i, j in [0, D); answers "zero" exactly for a zero block, otherwise hands that block out |
| RandomMatrices.RandomMultiBlockMatrix.constructor | src/tnewmatmul.cpp:243-267 | after re-seeding with 123 the table is `BlockLayers` of those draws; `getDim()` is `dim` and `multipleTransforms()` is true |
| RandomMatrices.RandomMultiBlockMatrix.Get | src/tnewmatmul.cpp:270-281 | requires i, j in [0, D) and k in [0, n/D); answers "zero" exactly for a zero block, otherwise hands that block out |
| RandomMatrices.RandomFullMatrix.constructor | src/tnewmatmul.cpp:312-330 | without re-seeding, every one of the n x n entries is drawn from the ambient stream where it stands (none is cleared), and the stream advances by n*n*d |
| RandomMatrices.RandomFullMatrix.Get | src/tnewmatmul.cpp:332-338 | requires i, j in [0, n); answers "zero" exactly for a zero entry, otherwise hands it out |
| RandomMatrices.RandomFullBlockMatrix.constructor | src/tnewmatmul.cpp:361-384 | without re-seeding, every n x n block is set to d x d and drawn cell by cell from the ambient stream (none is cleared); the stream advances by n*n*d*d |
| RandomMatrices.RandomFullBlockMatrix.Get | src/tnewmatmul.cpp:386-392 | requires i, j in [0, n); answers "zero" exactly for a zero block, otherwise hands it out |
| RandomMatrices.RandomMatrix.GetDim | src/tnewmatmul.cpp:62 | `getDim()` is a dimension of the array whose size D is the number of rows of the table (the constructor ensures it is `dim`) |
| RandomMatrices.RandomMatrix.MultipleTransforms | src/tnewmatmul.cpp:61 | `multipleTransforms()` is false: the generator holds a single D x D table, serving every copy of the dimension |
| RandomMatrices.RandomMultiMatrix.GetDim | src/tnewmatmul.cpp:128 | `getDim()` is a dimension of the array with D > 0 whose n/D copies are the layers of the table (the constructor ensures it is `dim`) |
| RandomMatrices.RandomMultiMatrix.MultipleTransforms | src/tnewmatmul.cpp:127 | `multipleTransforms()` is true: the table has one layer for each of the n/D copies |
| RandomMatrices.RandomBlockMatrix.GetDim | src/tnewmatmul.cpp:209 | `getDim()` is a dimension of the array whose size D is the number of rows of the block table |
| RandomMatrices.RandomBlockMatrix.MultipleTransforms | src/tnewmatmul.cpp:210 | `multipleTransforms()` is false: a single D x D table of blocks |
| RandomMatrices.RandomMultiBlockMatrix.GetDim | src/tnewmatmul.cpp:284 | `getDim()` is a dimension of the array with D > 0 whose n/D copies are the layers of the block table |
| RandomMatrices.RandomMultiBlockMatrix.MultipleTransforms | src/tnewmatmul.cpp:285 | `multipleTransforms()` is true: one layer of blocks for each of the n/D copies |
| RandomMatrices.BuildRandomMatrix | src/tnewmatmul.cpp:76-88 | null exactly for a tag other than GF2 and zz_p; otherwise a fresh RandomMatrix of the tag's field |
| RandomMatrices.BuildRandomMultiMatrix | src/tnewmatmul.cpp:144-156 | null exactly for an unsupported tag; otherwise a fresh RandomMultiMatrix of the tag's field |
| RandomMatrices.BuildRandomBlockMatrix | src/tnewmatmul.cpp:213-225 | null exactly for an unsupported tag; otherwise a fresh RandomBlockMatrix of the tag's field |
| RandomMatrices.BuildRandomMultiBlockMatrix | src/tnewmatmul.cpp:288-300 | null exactly for an unsupported tag; otherwise a fresh RandomMultiBlockMatrix of the tag's field |
| RandomMatrices.BuildRandomFullMatrix | src/tnewmatmul.cpp:343-350 | null exactly for an unsupported tag, with the stream untouched; otherwise a fresh RandomFullMatrix |
| RandomMatrices.BuildRandomFullBlockMatrix | src/tnewmatmul.cpp:397-404 | null exactly for an unsupported tag, with the stream untouched; otherwise a fresh RandomFullBlockMatrix |
| RandomMatrices.RandomMatrixGetDraws | src/tnewmatmul.cpp:48-72 | `get(out, i, j, k)` says "zero" exactly when the d draws of entry i*D + j after seed 123 are all zero, and otherwise returns the slot value they form |
| RandomMatrices.RandomMultiMatrixGetDraws | src/tnewmatmul.cpp:111-139 | `get(out, i, j, k)` reports the ((k*D + i)*D + j)-th slot value drawn after seed 123, and "zero" exactly when its draws are all zero |
| RandomMatrices.RandomBlockMatrixGetDraws | src/tnewmatmul.cpp:183-205 | `get` says "zero" exactly when the d*d draws of block i*D + j after seed 123 are all zero, and otherwise returns that block |
| RandomMatrices.RandomMultiBlockMatrixGetDraws | src/tnewmatmul.cpp:251-280 | `get` reports the ((k*D + i)*D + j)-th block drawn after seed 123, and "zero" exactly when its d*d draws are all zero |
| RandomMatrices.RandomFullMatrixGetDraws | src/tnewmatmul.cpp:318-337 | `get(out, i, j)` says "zero" exactly when the d draws of entry i*n + j from the starting position are all zero |
| RandomMatrices.RandomFullBlockMatrixGetDraws | src/tnewmatmul.cpp:367-391 | `get(out, i, j)` says "zero" exactly when the d*d draws of block i*n + j from the starting position are all zero |
| RandomMatrices.RandomMatrixDeterministic | src/tnewmatmul.cpp:48-57 | two distinct RandomMatrix generators built for the same array and dimension agree on every `get`, whatever state the ambient streams are in |
| RandomMatrices.RandomMultiMatrixDeterministic | src/tnewmatmul.cpp:111-123 | two distinct RandomMultiMatrix generators built for the same array and dimension agree on every `get` |
| RandomMatrices.RandomBlockMatrixDeterministic | src/tnewmatmul.cpp:183-195 | two distinct RandomBlockMatrix generators built for the same array and dimension agree on every `get` |
| RandomMatrices.RandomMultiBlockMatrixDeterministic | src/tnewmatmul.cpp:251-266 | two distinct RandomMultiBlockMatrix generators built for the same array and dimension agree on every `get` |
| RandomMatrices.RandomFullMatricesFollowStream | src/tnewmatmul.cpp:312-330 | two full generators built in a row read consecutive, disjoint stretches of the ambient stream |
| TestDriver.IsMinimal | src/tnewmatmul.cpp:469 | `minimal` holds exactly for ks_strategy 3 |
| TestDriver.KeySwitchPlan | src/tnewmatmul.cpp:469-493 | strategies 0, 1, 2 pair `addSome1DMatrices`, `add1DMatrices`, `addBSGS1DMatrices` with `addSomeFrbMatrices`; 3 pairs the minimal sets; everything else is the error "bad ks_strategy"; the minimal Frobenius set is chosen exactly when `minimal` holds |
| TestDriver.KeySwitchPlanInjective | src/tnewmatmul.cpp:473-493 | distinct strategies generate distinct key sets |
| TestDriver.SelectBuilder | src/tnewmatmul.cpp:505-521 | each (full, block) pair in {0,1}x{0,1} selects exactly one builder, full exactly when full == 1 and block exactly when block == 1; any other pair runs no test |
| TestDriver.SelectBuilderReachesEach | src/tnewmatmul.cpp:505-521 | every one of the four builders is selected by its own pair |
| TestDriver.TestIt | src/tnewmatmul.cpp:458-521 | a bad strategy stops the run before any generator is built; otherwise the keys are `KeySwitchPlan`, `minimal` is `ks_strategy == 3`, the selected builder runs and returns null only for an unsupported tag; a non-null generator is the one its builder makes: the instantiation for the field of the tag (GF2 or zz_p), for `dim` with the seed-123 table, or for the whole array with the table drawn from the ambient stream where it stood; of the generators, only the full ones draw from the ambient stream, and they advance it by n*n*d (scalar) or n*n*d*d (block) |

## Left out

- `DoTest` is not modelled: the executor's `upgrade` and `mul`, encryption, decryption, the plaintext product `mul(v, mat)` and `equals` are all HElib or NTL calls whose code is not part of this model. `TestIt` is modelled up to the point where it passes the generator to `DoTest`, and it passes a null generator on without a check, as the source does.
- The key-generation routines (`addSome1DMatrices` and the others) and `GenSecKey` are labels only; the randomness they consume from the ambient stream is not modelled.
- `RBak` saving and restoring the modulus context is not modelled; it is ambient state of NTL.
- The commented-out zero injection (`RandomBnd(bnd)`) is not modelled: its flag is the constant false, so the full constructors' contracts say that every entry is drawn.
- Random.RandomPoly: NTL's `random(x, d)` strips leading zero coefficients; the model keeps all d coefficients. Zero tests and the order of draws are unaffected.
- Random.RandomStream.Random: NTL's stream is a byte stream, and for GF(2) polynomials it is consumed by machine words, not coefficient by coefficient. The model counts one draw per coefficient-ring element. The draw positions are therefore a model of the order of consumption, not of NTL's byte offsets.
- `getEA()` is the `ea` field of each generator.
- Arithmetic on `long` (n*n and similar) is unbounded in the model; overflow cannot happen for the sizes HElib supports.
- `main` is not modelled: argument parsing, timers, `getrusage`, `SetNumThreads`, `cout` output, `FHEcontext` and `buildModChain`; the disabled alternative `EncryptedArray` built from `makeIrredPoly` is left out too.
- `sizeOfDimension(dim)` is HElib's; the model requires `dim` to name a dimension wherever a dimension-local generator is built.
