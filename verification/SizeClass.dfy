/** The size classes of slab.c and the layout of a zone. */
module SizeClass {

  const PAGE: int := 4096
  const ZONE_HEADER: int := 36          // sizeof(slab_zone) on a 32-bit machine
  const NZONES: int := 72
  const MIN_ZONE_SIZE: int := 32 * 1024
  const MAX_ZONE_SIZE: int := 128 * 1024
  const ZONE_LIMIT: int := 16 * 1024

  /** The chunk size of each class: eight classes to every doubling, sixteen for the smallest sizes. */
  function ChunkOf(zi: int): int
    requires 0 <= zi < NZONES
  {
    if zi < 16 then 8 * (zi + 1)
    else if zi < 24 then 16 * (zi - 7)
    else if zi < 32 then 32 * (zi - 15)
    else if zi < 40 then 64 * (zi - 23)
    else if zi < 48 then 128 * (zi - 31)
    else if zi < 56 then 256 * (zi - 39)
    else if zi < 64 then 512 * (zi - 47)
    else 1024 * (zi - 55)
  }

  /** zoneindex: the class and the adjusted size; masking with ~(2^k - 1) is rounding down to a multiple of 2^k. */
  function ZoneIndex(n: int): (int, int)
    requires 0 <= n
  {
    if n < 128 then
      var m := (n + 7) / 8 * 8; (m / 8 - 1, m)
    else if n < 256 then
      var m := (n + 15) / 16 * 16; (m / 16 + 7, m)
    else if n < 8192 then
      if n < 512 then
        var m := (n + 31) / 32 * 32; (m / 32 + 15, m)
      else if n < 1024 then
        var m := (n + 63) / 64 * 64; (m / 64 + 23, m)
      else if n < 2048 then
        var m := (n + 127) / 128 * 128; (m / 128 + 31, m)
      else if n < 4096 then
        var m := (n + 255) / 256 * 256; (m / 256 + 39, m)
      else
        var m := (n + 511) / 512 * 512; (m / 512 + 47, m)
    else if n < 16384 then
      var m := (n + 1023) / 1024 * 1024; (m / 1024 + 55, m)
    else (0, n)
  }

  /** Chunk sizes grow with the class. */
  lemma ChunksGrow(i: int, j: int)
    requires 0 <= i < j < NZONES
    ensures 8 <= ChunkOf(i) < ChunkOf(j) <= ZONE_LIMIT && ChunkOf(i) % 8 == 0
  {
  }

  /** A chunk of m bytes for n: less than eight bytes, or less than an eighth of the request, is wasted. */
  predicate SmallWaste(n: int, m: int) { m - n < 8 || 8 * (m - n) < n }

  ghost predicate Smallest(n: int)
    requires 0 <= n
  {
    var (zi, m) := ZoneIndex(n);
    && 0 <= zi < NZONES && m == ChunkOf(zi) && m >= n
    && (zi > 0 ==> ChunkOf(zi - 1) < n)
    && SmallWaste(n, m)
  }

  lemma Below128(n: int)
    requires 1 <= n < 128
    ensures Smallest(n)
  {
  }

  lemma Below256(n: int)
    requires 128 <= n < 256
    ensures Smallest(n)
  {
  }

  lemma Below512(n: int)
    requires 256 <= n < 512
    ensures Smallest(n)
  {
  }

  lemma Below1024(n: int)
    requires 512 <= n < 1024
    ensures Smallest(n)
  {
  }

  lemma Below2048(n: int)
    requires 1024 <= n < 2048
    ensures Smallest(n)
  {
  }

  lemma Below4096(n: int)
    requires 2048 <= n < 4096
    ensures Smallest(n)
  {
  }

  lemma Below8192(n: int)
    requires 4096 <= n < 8192
    ensures Smallest(n)
  {
  }

  lemma Below16384(n: int)
    requires 8192 <= n < 16384
    ensures Smallest(n)
  {
  }

  /** zoneindex finds the smallest class that holds the request, and wastes less than eight bytes or an eighth of it. */
  lemma SmallestClass(n: int)
    requires 0 < n < ZONE_LIMIT
    ensures Smallest(n)
  {
    hide Smallest;
    if n < 128 {
      Below128(n);
    } else if n < 256 {
      Below256(n);
    } else if n < 512 {
      Below512(n);
    } else if n < 1024 {
      Below1024(n);
    } else if n < 2048 {
      Below2048(n);
    } else if n < 4096 {
      Below4096(n);
    } else if n < 8192 {
      Below8192(n);
    } else {
      Below16384(n);
    }
  }

  /** The test for powers of two of rt_malloc, on 32-bit words; PowerTestExact says what it decides. */
  predicate PowerTest(s: bv32) { (s | (s - 1)) + 1 == s << 1 }

  predicate PowerOfTwo(size: int) {
    size == 8 || size == 16 || size == 32 || size == 64 || size == 128 || size == 256 || size == 512 || size == 1024
    || size == 2048 || size == 4096 || size == 8192 || size == 16384
  }

  lemma PowerTestExact(s: bv32)
    requires 8 <= s <= 16384
    ensures PowerTest(s) <==> (s == 8 || s == 16 || s == 32 || s == 64 || s == 128 || s == 256 || s == 512 || s == 1024
                               || s == 2048 || s == 4096 || s == 8192 || s == 16384)
  {
  }

  // The layout of a zone: header, padding, chunks.

  /** Where the chunks start: aligned to the chunk size if that is a power of two, else to 8. */
  function ZoneOffset(size: int): int
    requires size > 0
  {
    if PowerOfTwo(size) then (ZONE_HEADER + size - 1) / size * size else (ZONE_HEADER + 7) / 8 * 8
  }

  function ZoneChunks(zoneSize: int, size: int): int
    requires size > 0
  {
    (zoneSize - ZoneOffset(size)) / size
  }

  predicate ZoneSizeOk(zoneSize: int) {
    zoneSize == MIN_ZONE_SIZE || zoneSize == 2 * MIN_ZONE_SIZE || zoneSize == MAX_ZONE_SIZE
  }

  function ZoneLimit(zoneSize: int): int { if zoneSize / 4 > ZONE_LIMIT then ZONE_LIMIT else zoneSize / 4 }

  lemma OffsetBounds(size: int)
    requires 8 <= size <= ZONE_LIMIT
    ensures ZONE_HEADER <= ZoneOffset(size) && (ZoneOffset(size) <= 64 || ZoneOffset(size) == size)
    ensures if PowerOfTwo(size) then ZoneOffset(size) % size == 0 && ZoneOffset(size) < ZONE_HEADER + size
            else ZoneOffset(size) % 8 == 0 && ZoneOffset(size) < ZONE_HEADER + 8
  {
  }

  lemma DivideAtLeast(a: int, b: int, q: int)
    requires b > 0 && a >= q * b
    ensures a / b >= q && (a / b) * b <= a < (a / b + 1) * b
  {
    assert a == (a / b) * b + a % b;
    assert (a / b + 1) * b == (a / b) * b + b;
    if a / b < q {
      StepProduct(a / b, q, b);
    }
  }

  lemma StepProduct(x: int, y: int, b: int)
    requires x < y && b > 0
    ensures x * b + b <= y * b
  {
    assert x * b + b == (x + 1) * b;
    Product(x + 1, y, b);
  }

  lemma Product(x: int, y: int, b: int)
    requires x <= y && b > 0
    ensures x * b <= y * b
  {
  }

  /** Every zone holds at least three chunks, behind its header and inside its pages, and one more would not fit.  They
      start at the first place behind the header that suits their size. */
  lemma ZoneLayout(zoneSize: int, zi: int)
    requires ZoneSizeOk(zoneSize) && 0 <= zi < NZONES && ChunkOf(zi) <= ZoneLimit(zoneSize)
    ensures ChunkOf(zi) >= 8
    ensures var size := ChunkOf(zi);
            && ZoneOffset(size) >= ZONE_HEADER && ZoneChunks(zoneSize, size) >= 3
            && ZoneOffset(size) + ZoneChunks(zoneSize, size) * size <= zoneSize
            && zoneSize < ZoneOffset(size) + (ZoneChunks(zoneSize, size) + 1) * size
            && (if PowerOfTwo(size) then ZoneOffset(size) % size == 0 && ZoneOffset(size) < ZONE_HEADER + size
                else ZoneOffset(size) % 8 == 0 && ZoneOffset(size) < ZONE_HEADER + 8)
  {
    var size := ChunkOf(zi);
    OffsetBounds(size);
    hide ZoneOffset, ChunkOf;
    DivideAtLeast(zoneSize - ZoneOffset(size), size, 3);
  }

  /** The classes a zone can serve are those of the requests below the zone limit. */
  lemma ClassFits(zoneSize: int, n: int)
    requires ZoneSizeOk(zoneSize) && 0 < n < ZoneLimit(zoneSize)
    ensures var (zi, m) := ZoneIndex(n); 0 <= zi < NZONES && m == ChunkOf(zi) && n <= m <= ZoneLimit(zoneSize)
  {
    SmallestClass(n);
    if n >= 4096 {
    }
  }

  /** The address of chunk i of a zone whose first byte is at `zone`. */
  function ChunkAddress(zone: int, size: int, i: int): int
    requires size > 0
  {
    zone + ZoneOffset(size) + i * size
  }

  /** Chunks of a zone are apart, behind the header, and inside the zone. */
  lemma ChunksApart(zone: int, zoneSize: int, zi: int, i: int, j: int)
    requires ZoneSizeOk(zoneSize) && 0 <= zi < NZONES && ChunkOf(zi) <= ZoneLimit(zoneSize)
    requires ChunkOf(zi) > 0 && 0 <= i < j < ZoneChunks(zoneSize, ChunkOf(zi))
    ensures var size := ChunkOf(zi);
            && zone + ZONE_HEADER <= ChunkAddress(zone, size, i)
            && ChunkAddress(zone, size, i) + size <= ChunkAddress(zone, size, j)
            && ChunkAddress(zone, size, j) + size <= zone + zoneSize
  {
    var size := ChunkOf(zi);
    ZoneLayout(zoneSize, zi);
    hide ZoneOffset, ZoneChunks, ChunkOf;
    StepProduct(i, j, size);
    StepProduct(j, ZoneChunks(zoneSize, size), size);
    Product(0, i, size);
  }

  /** A chunk whose size is a power of two no larger than a page is aligned to its size. */
  lemma ChunkAligned(page: int, size: int, i: int)
    requires PowerOfTwo(size) && size <= PAGE && page % PAGE == 0
    ensures ChunkAddress(page, size, i) % size == 0
  {
    OffsetBounds(size);
    var a, b := page / PAGE * (PAGE / size), ZoneOffset(size) / size;
    assert PAGE / size * size == PAGE;
    assert page == page / PAGE * PAGE;
    MulAssoc(page / PAGE, PAGE / size, size);
    assert ZoneOffset(size) == b * size;
    assert ChunkAddress(page, size, i) == (a + b + i) * size by {
      Distribute(a, b, i, size);
    }
    MultipleZero(a + b + i, size);
  }

  lemma MulAssoc(x: int, y: int, z: int)
    ensures x * y * z == x * (y * z)
  {
  }

  lemma Distribute(a: int, b: int, i: int, z: int)
    ensures (a + b + i) * z == a * z + b * z + i * z
  {
  }

  lemma MultipleZero(q: int, k: int)
    requires k > 0
    ensures q * k % k == 0
  {
    var d := q * k / k - q;
    assert q * k == (q * k / k) * k + q * k % k;
    assert d * k == -(q * k % k) by {
      assert d * k == (q * k / k) * k - q * k;
    }
    if d >= 1 {
      Product(1, d, k);
    } else if d <= -1 {
      Product(d, -1, k);
    }
  }
}
