/** The driver's choices in TestIt: which key-switching matrices the secret
    key gets (the ks_strategy switch), whether the executor runs in minimal
    mode, and which generator the (full, block) pair builds for DoTest. Key
    generation and DoTest themselves are outside the model: the key-generation
    routines appear only as labels. */
module TestDriver {
  import opened Wrappers
  import opened Hypercube
  import opened Tables
  import opened Random
  import opened RandomMatrices

  /** The routine that adds the 1-D key-switching matrices. */
  datatype OneDKeys = AddSome1DMatrices | Add1DMatrices | AddBSGS1DMatrices | AddMinimal1DMatrices

  /** The routine that adds the Frobenius key-switching matrices. */
  datatype FrbKeys = AddSomeFrbMatrices | AddMinimalFrbMatrices

  datatype KeyPlan = KeyPlan(oneD: OneDKeys, frb: FrbKeys)

  /** The `minimal` flag TestIt hands to DoTest. */
  function IsMinimal(ksStrategy: int): bool {
    ksStrategy == 3
  }

  /** The switch on ks_strategy: 0 default, 1 full, 2 BSGS, 3 minimal; any
      other value raises "bad ks_strategy". Every strategy but the minimal one
      adds some Frobenius matrices, and the minimal strategy is the only one
      that adds the minimal 1-D set. */
  function KeySwitchPlan(ksStrategy: int): (r: Result<KeyPlan>)
    ensures r.Ok? <==> 0 <= ksStrategy <= 3
    ensures r.Error? ==> r.message == "bad ks_strategy"
    ensures r.Ok? ==> (r.value.frb == AddSomeFrbMatrices <==> !IsMinimal(ksStrategy))
    ensures r.Ok? ==> (r.value.oneD == AddMinimal1DMatrices <==> IsMinimal(ksStrategy))
  {
    match ksStrategy
    case 0 => Ok(KeyPlan(AddSome1DMatrices, AddSomeFrbMatrices))
    case 1 => Ok(KeyPlan(Add1DMatrices, AddSomeFrbMatrices))
    case 2 => Ok(KeyPlan(AddBSGS1DMatrices, AddSomeFrbMatrices))
    case 3 => Ok(KeyPlan(AddMinimal1DMatrices, AddMinimalFrbMatrices))
    case _ => Error("bad ks_strategy")
  }

  /** The four strategies are told apart by the keys they generate. */
  lemma {:induction false} KeySwitchPlanInjective(a: int, b: int)
    requires KeySwitchPlan(a).Ok? && KeySwitchPlan(b).Ok?
    requires KeySwitchPlan(a).value == KeySwitchPlan(b).value
    ensures a == b
  {
  }

  /** The four build functions TestIt can call. */
  datatype Builder = Scalar1D | Block1D | ScalarFull | BlockFull

  predicate IsFull(b: Builder) {
    b == ScalarFull || b == BlockFull
  }

  predicate IsBlock(b: Builder) {
    b == Block1D || b == BlockFull
  }

  /** The (full, block) dispatch: each pair in {0, 1} x {0, 1} picks the
      build function that is full exactly when full == 1 and block-valued
      exactly when block == 1; any other pair runs no test. */
  function SelectBuilder(full: int, block: int): (r: Option<Builder>)
    ensures r.Some? <==> (full == 0 || full == 1) && (block == 0 || block == 1)
    ensures r.Some? ==> (IsFull(r.value) <==> full == 1) && (IsBlock(r.value) <==> block == 1)
  {
    if full == 0 && block == 0 then Some(Scalar1D)
    else if full == 0 && block == 1 then Some(Block1D)
    else if full == 1 && block == 0 then Some(ScalarFull)
    else if full == 1 && block == 1 then Some(BlockFull)
    else None
  }

  /** Every build function is selected by its own (full, block) pair. */
  lemma {:induction false} SelectBuilderReachesEach(b: Builder)
    ensures SelectBuilder(if IsFull(b) then 1 else 0, if IsBlock(b) then 1 else 0) == Some(b)
  {
  }

  /** The generator TestIt passes to DoTest, as the build function returned it
      (null for an unsupported field tag). */
  datatype MatrixUnderTest =
    | Scalar1DMatrix(m: RandomMatrix?)
    | Block1DMatrix(bm: RandomBlockMatrix?)
    | ScalarFullMatrix(fm: RandomFullMatrix?)
    | BlockFullMatrix(fbm: RandomFullBlockMatrix?)
  {
    function Kind(): Builder {
      match this
      case Scalar1DMatrix(_) => Scalar1D
      case Block1DMatrix(_) => Block1D
      case ScalarFullMatrix(_) => ScalarFull
      case BlockFullMatrix(_) => BlockFull
    }

    function Object(): object? {
      match this
      case Scalar1DMatrix(m) => m
      case Block1DMatrix(m) => m
      case ScalarFullMatrix(m) => m
      case BlockFullMatrix(m) => m
    }

    /** The generator is the one its build function makes for `ea` and
        `dim`: it is the instantiation for the field of the tag, a
        dimension-local one holds the table drawn after re-seeding
        the generator `seeded` with 123, a full one the table drawn from
        position `start` of the ambient draws `draws`. */
    predicate BuiltFor(ea: EncryptedArray, dim: int, seeded: int -> Draws, draws: Draws, start: nat) {
      match this
      case Scalar1DMatrix(m) => m != null ==>
        && !ea.tag.OtherTag? && m.field == FieldOf(ea.tag) && m.ea == ea && m.Valid() && m.GetDim() == dim
        && m.data == PolySquare(seeded(SEED), 0, SizeOfDimension(ea, dim), ea.degree)
      case Block1DMatrix(m) => m != null ==>
        && !ea.tag.OtherTag? && m.field == FieldOf(ea.tag) && m.ea == ea && m.Valid() && m.GetDim() == dim
        && m.data == BlockSquare(seeded(SEED), 0, SizeOfDimension(ea, dim), ea.degree)
      case ScalarFullMatrix(m) => m != null ==>
        && !ea.tag.OtherTag? && m.field == FieldOf(ea.tag) && m.ea == ea && m.Valid()
        && m.data == PolySquare(draws, start, Size(ea), ea.degree)
      case BlockFullMatrix(m) => m != null ==>
        && !ea.tag.OtherTag? && m.field == FieldOf(ea.tag) && m.ea == ea && m.Valid()
        && m.data == BlockSquare(draws, start, Size(ea), ea.degree)
    }

    /** How many draws building the generator took from the ambient stream:
        none for a dimension-local generator or a null one. */
    function DrawsTaken(ea: EncryptedArray): nat {
      match this
      case ScalarFullMatrix(m) => if m == null then 0 else Size(ea) * Size(ea) * ea.degree
      case BlockFullMatrix(m) => if m == null then 0 else Size(ea) * Size(ea) * (ea.degree * ea.degree)
      case _ => 0
    }
  }

  /** What one run of TestIt prepares: the keys, the minimal flag and the
      generator under test (None when (full, block) selects no test). */
  datatype Trial = Trial(keys: KeyPlan, minimal: bool, matrix: Option<MatrixUnderTest>)

  /** TestIt up to the call of DoTest. A bad strategy stops it before any
      generator is built. Of the generators, only the full ones draw from the
      ambient stream. */
  method TestIt(ea: EncryptedArray, dim: int, full: int, block: int, ksStrategy: int, rng: RandomStream)
    returns (r: Result<Trial>)
    requires KeySwitchPlan(ksStrategy).Ok? && full == 0 && (block == 0 || block == 1) && !ea.tag.OtherTag?
      ==> 0 <= dim < |ea.dimSizes|
    modifies rng
    ensures r.Error? <==> KeySwitchPlan(ksStrategy).Error?
    ensures r.Error? ==> r.message == "bad ks_strategy"
    ensures r.Ok? ==> r.value.keys == KeySwitchPlan(ksStrategy).value && r.value.minimal == IsMinimal(ksStrategy)
    ensures r.Ok? ==> (r.value.matrix.Some? <==> SelectBuilder(full, block).Some?)
    ensures r.Ok? && r.value.matrix.Some? ==>
      && r.value.matrix.value.Kind() == SelectBuilder(full, block).value
      && (r.value.matrix.value.Object() == null <==> ea.tag.OtherTag?)
      && (r.value.matrix.value.Object() != null ==> fresh(r.value.matrix.value.Object()))
      && r.value.matrix.value.BuiltFor(ea, dim, rng.seeded, old(rng.Current()), old(rng.pos))
    ensures rng.seed == old(rng.seed)
    ensures rng.pos == old(rng.pos) + if r.Ok? && r.value.matrix.Some? then r.value.matrix.value.DrawsTaken(ea) else 0
  {
    var minimal := IsMinimal(ksStrategy);
    var plan := KeySwitchPlan(ksStrategy);
    if plan.Error? {
      return Error(plan.message);
    }
    var matrix: Option<MatrixUnderTest> := None;
    if full == 0 && block == 0 {
      var ptr := BuildRandomMatrix(ea, dim, rng);
      matrix := Some(Scalar1DMatrix(ptr));
    } else if full == 0 && block == 1 {
      var ptr := BuildRandomBlockMatrix(ea, dim, rng);
      matrix := Some(Block1DMatrix(ptr));
    } else if full == 1 && block == 0 {
      var ptr := BuildRandomFullMatrix(ea, rng);
      matrix := Some(ScalarFullMatrix(ptr));
    } else if full == 1 && block == 1 {
      var ptr := BuildRandomFullBlockMatrix(ea, rng);
      matrix := Some(BlockFullMatrix(ptr));
    }
    r := Ok(Trial(plan.value, minimal, matrix));
  }
}
