/** Machine words of the 32-bit build: `rt_size_t`, `rt_tick_t` and `rt_ubase_t`. */
module Word {

  const WORD: int := 0x1_0000_0000

  type u32 = x: int | 0 <= x < 0x1_0000_0000

  type byte = x: int | 0 <= x < 256

  /** RT_ALIGN(size, RT_ALIGN_SIZE) with RT_ALIGN_SIZE 4, in 32-bit arithmetic. */
  function AlignUp(size: u32): (r: u32)
    ensures r % 4 == 0
    ensures r >= size <==> size <= WORD - 4
    ensures r >= size ==> r < size + 4
  {
    (size + 3) % WORD / 4 * 4
  }

  function AlignDown(size: u32): (r: u32)
    ensures r % 4 == 0 && r <= size < r + 4
  {
    size / 4 * 4
  }

  function Max(a: int, b: int): int { if a < b then b else a }

  function Min(a: int, b: int): int { if a < b then a else b }
}
