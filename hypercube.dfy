/** The part of HElib's EncryptedArray the generators consult: the plaintext
    algebra's tag (which template instantiation serves it), the degree d of
    a slot, and the sizes of the hypercube's dimensions. The number of slots
    is the product of the dimension sizes. */
module Hypercube {
  import opened RowMajor

  datatype FieldTag = GF2Tag | ZzpTag | OtherTag(code: int)

  datatype EncryptedArray = EncryptedArray(tag: FieldTag, degree: nat, dimSizes: seq<nat>)

  function Product(s: seq<nat>): nat {
    if s == [] then 1 else s[0] * Product(s[1..])
  }

  /** The product of all sizes but the one at `dim`. */
  function ProductExcept(s: seq<nat>, dim: nat): nat
    requires dim < |s|
  {
    Product(s[..dim] + s[dim + 1..])
  }

  /** ea.size(): the number of slots. */
  function Size(ea: EncryptedArray): nat {
    Product(ea.dimSizes)
  }

  /** ea.sizeOfDimension(dim): D. */
  function SizeOfDimension(ea: EncryptedArray, dim: int): nat
    requires 0 <= dim < |ea.dimSizes|
  {
    ea.dimSizes[dim]
  }

  /** Every slot count is a multiple of each dimension's size. */
  lemma {:induction false} ProductSplits(s: seq<nat>, dim: nat)
    requires dim < |s|
    ensures Product(s) == s[dim] * ProductExcept(s, dim)
  {
    if dim == 0 {
      assert s[..0] + s[1..] == s[1..];
    } else {
      ProductSplits(s[1..], dim - 1);
      assert s[..dim] + s[dim + 1..] == [s[0]] + (s[1..][..dim - 1] + s[1..][dim..]);
      calc {
        Product(s);
        s[0] * Product(s[1..]);
        s[0] * (s[dim] * ProductExcept(s[1..], dim - 1));
        s[dim] * (s[0] * ProductExcept(s[1..], dim - 1));
        s[dim] * ProductExcept(s, dim);
      }
    }
  }

  /** n / D, the number of copies of dimension `dim` in the hypercube: it
      divides n exactly, so the copies together hold every slot. */
  function Copies(ea: EncryptedArray, dim: int): (c: nat)
    requires 0 <= dim < |ea.dimSizes| && SizeOfDimension(ea, dim) > 0
    ensures c * SizeOfDimension(ea, dim) == Size(ea)
    ensures c == ProductExcept(ea.dimSizes, dim)
  {
    ProductSplits(ea.dimSizes, dim);
    OrdinalDecode(ProductExcept(ea.dimSizes, dim), 0, SizeOfDimension(ea, dim));
    Size(ea) / SizeOfDimension(ea, dim)
  }
}
