/** The plaintext values a test matrix is made of.
    An element of the coefficient ring, GF(2) or Z/p^rZ, is represented by its residue, zero being 0.
    A slot value RX is a polynomial of degree below d, given by its d coefficients.
    A block entry mat_R is a d x d matrix over that ring, given by its rows. */
module Ring {

  type Coeff = int

  type Poly = seq<Coeff>

  type Block = seq<seq<Coeff>>

  /** NTL's IsZero on a polynomial: every coefficient is zero. */
  predicate IsZeroPoly(x: Poly) {
    forall t | 0 <= t < |x| :: x[t] == 0
  }

  /** NTL's IsZero on a matrix: every cell is zero. */
  predicate IsZeroBlock(b: Block) {
    forall u, v | 0 <= u < |b| && 0 <= v < |b[u]| :: b[u][v] == 0
  }

  /** A block of dimensions d x d, as SetDims(d, d) makes it. */
  predicate BlockShaped(b: Block, d: nat) {
    |b| == d && forall u | 0 <= u < d :: |b[u]| == d
  }
}
