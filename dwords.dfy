/** Unsigned 32-bit millisecond timestamps (the Win32 `DWORD` returned by
    `timeGetTime`) and their wrap-around subtraction. */
module DWords {

  const Modulus: int := 0x1_0000_0000

  newtype DWord = x: int | 0 <= x < 0x1_0000_0000

  /** `a - b` on `DWORD` operands: the mathematical difference, plus 2^32
      when it would be negative. */
  function WrapSub(a: DWord, b: DWord): (r: DWord)
    ensures a >= b ==> r as int == a as int - b as int
    ensures a < b ==> r as int == a as int - b as int + Modulus
  {
    ((a as int - b as int) % Modulus) as DWord
  }
}
