/** The total-memory figure derived from the system basic information. */
module Capacity {
  import opened PlatformTypes

  const TWO_TO_THE_64: int := 0x1_0000_0000_0000_0000
  const MAX_UINT32: int := 0xFFFF_FFFF

  /** C's `uint64_t * uint64_t`: the product wraps modulo 2^64. */
  function MulU64(a: uint64, b: uint64): uint64 {
    ((a as int * b as int) % TWO_TO_THE_64) as uint64
  }

  /** Multiplying by a non-negative number keeps an upper bound. */
  lemma MulMonotonic(x: int, y: int, bound: int)
    requires 0 <= x && y <= bound
    ensures x * y <= x * bound
  {
    var d := bound - y;
    assert x * bound == x * y + x * d;
  }

  /** Two 32-bit factors never overflow a 64-bit product. */
  lemma ProductOfU32sFitsU64(a: uint32, b: uint32)
    ensures a as int * b as int < TWO_TO_THE_64
  {
    var x, y := a as int, b as int;
    MulMonotonic(x, y, MAX_UINT32);
    MulMonotonic(MAX_UINT32, x, MAX_UINT32);
    assert MAX_UINT32 * MAX_UINT32 == 0xFFFF_FFFE_0000_0001;
  }

  /** QuicTotalMemory: the number of physical pages times the page size, both
      widened to 64 bits before the multiplication. The wrapping product is
      the exact one. */
  function TotalMemory(sbi: SystemBasicInformation): (m: uint64)
    ensures m as int == sbi.numberOfPhysicalPages as int * sbi.pageSize as int
  {
    ProductOfU32sFitsU64(sbi.numberOfPhysicalPages, sbi.pageSize);
    MulU64(sbi.numberOfPhysicalPages as uint64, sbi.pageSize as uint64)
  }
}
