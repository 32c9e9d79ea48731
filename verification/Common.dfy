/** Types shared by every part of the model: failure-carrying results and the
    machine-integer widths the program uses. */
module Common {
  datatype Option<+T> = None | Some(value: T)

  datatype Result<+T, +E> = Ok(value: T) | Err(error: E)

  const TWO_TO_THE_32: nat := 0x1_0000_0000
  const TWO_TO_THE_63: int := 0x8000_0000_0000_0000
  const TWO_TO_THE_64: nat := 0x1_0000_0000_0000_0000

  type u32 = x: nat | x < TWO_TO_THE_32
  type u64 = x: nat | x < TWO_TO_THE_64
  type i64 = x: int | -0x8000_0000_0000_0000 <= x < 0x8000_0000_0000_0000

  // Addition and multiplication of the release build: they wrap around.

  function Add32(a: u32, b: u32): u32 {
    (a + b) % TWO_TO_THE_32
  }

  function Add64(a: u64, b: u64): u64 {
    (a + b) % TWO_TO_THE_64
  }

  function Mul64(a: u64, b: u64): u64 {
    (a * b) % TWO_TO_THE_64
  }

  lemma {:induction false} SubsetCardinality<T>(a: set<T>, b: set<T>)
    requires a <= b
    ensures |a| <= |b|
  {
    if a != {} {
      var x :| x in a;
      SubsetCardinality(a - {x}, b - {x});
    }
  }
}
