/** The mutable big integers of Go's math/big, as far as they are used: the receiver is overwritten
    with the result and returned. */
module BigInts {
  type byte = n: nat | n < 256

  /** Big-endian value. */
  function Base256(bs: seq<byte>): nat {
    if bs == [] then 0 else 256 * Base256(bs[..|bs| - 1]) + bs[|bs| - 1]
  }

  class BigInt {
    var value: int

    constructor (value: int)
      ensures this.value == value
    {
      this.value := value;
    }

    method Add(x: BigInt, y: BigInt) returns (z: BigInt)
      modifies this
      ensures z == this && value == old(x.value) + old(y.value)
    {
      value := x.value + y.value;
      z := this;
    }

    method Sub(x: BigInt, y: BigInt) returns (z: BigInt)
      modifies this
      ensures z == this && value == old(x.value) - old(y.value)
    {
      value := x.value - y.value;
      z := this;
    }

    method Neg(x: BigInt) returns (z: BigInt)
      modifies this
      ensures z == this && value == -old(x.value)
    {
      value := -x.value;
      z := this;
    }

    method SetBytes(bs: seq<byte>) returns (z: BigInt)
      modifies this
      ensures z == this && value == Base256(bs)
    {
      value := Base256(bs);
      z := this;
    }

    method Cmp(y: BigInt) returns (c: int)
      ensures c == if value < y.value then -1 else if value == y.value then 0 else 1
    {
      c := if value < y.value then -1 else if value == y.value then 0 else 1;
    }
  }
}
