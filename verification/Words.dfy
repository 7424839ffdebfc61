// 32-bit numbers.
module Words {
  const TWO31 := 0x8000_0000
  const TWO32 := 0x1_0000_0000

  // Conversion to a 32-bit signed number.
  function Int32(x: int): (r: int)
    ensures -TWO31 <= r < TWO31
    ensures r == x <==> -TWO31 <= x < TWO31
  {
    (x + TWO31) % TWO32 - TWO31
  }

  // Conversion to a 32-bit unsigned number.
  function UInt32(x: nat): (r: nat)
    ensures r <= x && (x < TWO32 ==> r == x)
    ensures r < TWO32 && (x - r) % TWO32 == 0
  {
    x % TWO32
  }
}
