/** rt_malloc_align and rt_free_align (kservice.c).

    Masking with a power of two less one is written as a remainder, clearing those bits as rounding down. */
module AlignedAlloc {
  import opened Word

  predicate PowerOfTwo(a: int) {
    a == 1 || (a > 1 && a % 2 == 0 && PowerOfTwo(a / 2))
  }

  predicate IsAligned(p: int, a: int)
    requires a > 0
  {
    p % a == 0
  }

  /** The alignment rt_malloc_align works with. */
  function Alignment(align: u32): u32 { AlignUp(align) }

  /** The size it asks rt_malloc for. */
  function TotalSize(size: u32, align: u32): u32 { (AlignUp(size) + Alignment(align)) % WORD }

  /** The pointer it returns for a block at ptr. */
  function AlignedPointer(ptr: u32, a: u32): int
    requires a > 0
  {
    if IsAligned(ptr, a) then (ptr + a) % WORD else Down((ptr + a - 1) % WORD, a)
  }

  /** x & ~(a - 1). */
  function Down(x: int, a: int): int
    requires a > 0
  {
    x / a * a
  }

  /** The rounded sizes do not run over the end of the address space. */
  predicate Fits(size: u32, align: u32) {
    size <= WORD - 4 && align <= WORD - 4 && AlignUp(size) + AlignUp(align) < WORD
  }

  /** A block of TotalSize bytes on a word boundary, inside the address space. */
  predicate Block(ptr: u32, size: u32, align: u32) {
    ptr % 4 == 0 && ptr + TotalSize(size, align) < WORD
  }

  lemma {:induction false} PowerPositive(a: int)
    requires PowerOfTwo(a)
    ensures a >= 1 && (a >= 4 ==> a % 4 == 0)
  {
    if a > 1 {
      PowerPositive(a / 2);
      if a > 2 {
        assert a / 2 % 2 == 0;
      }
    }
  }

  /** Rounding a power of two up to words leaves it alone, or makes it a word. */
  lemma AlignmentFacts(align: u32)
    requires PowerOfTwo(align) && align <= WORD - 4
    ensures PowerOfTwo(Alignment(align)) && Alignment(align) % 4 == 0
            && Alignment(align) == (if align < 4 then 4 else align)
  {
    PowerPositive(align);
    assert PowerOfTwo(4) by {
      assert PowerOfTwo(2) && PowerOfTwo(1);
    }
  }

  lemma Stricter(p: int, align: u32)
    requires PowerOfTwo(align) && align <= WORD - 4 && Alignment(align) > 0 && IsAligned(p, Alignment(align))
    ensures align > 0 && IsAligned(p, align)
  {
    hide PowerOfTwo, IsAligned;
    AlignmentFacts(align);
    PowerPositive(align);
    if align < 4 {
      SmallPower(align);
      AlignedToWord(p, align);
    }
  }

  lemma SmallPower(a: int)
    requires PowerOfTwo(a) && a < 4
    ensures a == 1 || a == 2
  {
  }

  lemma AlignedToWord(p: int, a: int)
    requires IsAligned(p, 4) && (a == 1 || a == 2)
    ensures IsAligned(p, a)
  {
  }

  lemma DownFacts(x: int, a: int)
    requires a > 0 && x >= 0
    ensures IsAligned(Down(x, a), a) && 0 <= Down(x, a) <= x < Down(x, a) + a
  {
    var q := x / a;
    assert x == q * a + x % a;
    Multiple(q, a);
    if q == 0 {
    } else {
      Bound(q, a);
    }
  }

  lemma Multiple(q: int, a: int)
    requires a > 0
    ensures q * a % a == 0
  {
    var d := q * a / a - q;
    assert q * a == (q * a / a) * a + q * a % a;
    assert d * a == (q * a / a) * a - q * a;
    if d >= 1 {
      Bound(d, a);
    } else if d <= -1 {
      Bound(-d, a);
    }
  }

  lemma Bound(d: int, a: int)
    requires d >= 1 && a > 0
    ensures d * a >= a && (-d) * a == -(d * a)
  {
  }

  /** The pointer of a word-aligned block: aligned, past one word, at most the alignment away. */
  lemma PointerFacts(ptr: u32, a: u32)
    requires a >= 4 && a % 4 == 0 && ptr % 4 == 0 && ptr + a < WORD
    ensures var p := AlignedPointer(ptr, a); IsAligned(p, a) && p % 4 == 0 && ptr + 4 <= p <= ptr + a
  {
    hide Down, IsAligned;
    SmallSum(ptr + a);
    if IsAligned(ptr, a) {
      ShiftAligned(ptr, a);
    } else {
      SmallSum(ptr + a - 1);
      DownFacts(ptr + a - 1, a);
      assert Down(ptr + a - 1, a) != ptr;
    }
    WordMultiple(AlignedPointer(ptr, a), a);
  }

  lemma SmallSum(x: int)
    requires 0 <= x < WORD
    ensures x % WORD == x
  {
  }

  lemma ShiftAligned(p: int, a: int)
    requires a > 0 && IsAligned(p, a)
    ensures IsAligned(p + a, a)
  {
    assert p == p / a * a;
    assert p + a == (p / a + 1) * a;
    Multiple(p / a + 1, a);
  }

  lemma WordMultiple(p: int, a: int)
    requires a > 0 && a % 4 == 0 && IsAligned(p, a)
    ensures p % 4 == 0
  {
    assert p == p / a * a && a == 4 * (a / 4);
    Regroup(p / a, a / 4);
    assert p == (p / a * (a / 4)) * 4;
  }

  lemma Regroup(x: int, y: int)
    ensures x * (4 * y) == (x * y) * 4
  {
  }

  /** The pointer is aligned as asked, leaves room for the back pointer, and has size bytes inside the block. */
  ghost predicate Inside(ptr: u32, size: u32, align: u32)
    requires align > 0 && Alignment(align) > 0
  {
    var p := AlignedPointer(ptr, Alignment(align));
    && IsAligned(p, align) && p % 4 == 0
    && ptr <= p - 4 && p + size <= ptr + TotalSize(size, align)
  }

  lemma InsideIfFits(ptr: u32, size: u32, align: u32)
    requires PowerOfTwo(align) && Fits(size, align) && Block(ptr, size, align)
    ensures align > 0 && Alignment(align) > 0 && Inside(ptr, size, align)
  {
    hide PowerOfTwo, IsAligned, AlignedPointer;
    AlignmentFacts(align);
    PowerPositive(align);
    PointerFacts(ptr, Alignment(align));
    Stricter(AlignedPointer(ptr, Alignment(align)), align);
  }

  function Power(k: nat): int { if k == 0 then 1 else 2 * Power(k - 1) }

  lemma {:induction false} PowerBelow(a: int, k: nat)
    requires PowerOfTwo(a) && a < Power(k)
    ensures k > 0 && a <= Power(k - 1)
  {
    PowerPositive(a);
    if a > 1 {
      PowerBelow(a / 2, k - 1);
    } else {
      PowerAtLeast(k - 1);
    }
  }

  lemma {:induction false} PowerAtLeast(k: nat)
    ensures Power(k) >= 1
  {
    if k > 0 {
      PowerAtLeast(k - 1);
    }
  }

  lemma HalfSpace(align: u32)
    requires PowerOfTwo(align)
    ensures align <= 0x8000_0000
  {
    hide PowerOfTwo;
    assert Power(8) == 256;
    assert Power(16) == 65536;
    assert Power(24) == 0x100_0000;
    assert Power(31) == 0x8000_0000 && Power(32) == WORD;
    PowerBelow(align, 32);
  }

  /** Of a block of the size it asked for, rt_malloc_align hands out an aligned part of `size` bytes behind a back
      pointer if and only if the rounded size and alignment do not run over the end of the address space. */
  lemma AlignedInside(ptr: u32, size: u32, align: u32)
    requires PowerOfTwo(align) && Block(ptr, size, align)
    ensures align > 0 && Alignment(align) > 0 && (Inside(ptr, size, align) <==> Fits(size, align))
  {
    HalfSpace(align);
    hide PowerOfTwo, IsAligned, AlignedPointer;
    AlignmentFacts(align);
    PowerPositive(align);
    if Fits(size, align) {
      InsideIfFits(ptr, size, align);
    } else {
      WrappedTotal(size, align);
    }
  }

  lemma WrappedTotal(size: u32, align: u32)
    requires !Fits(size, align) && Alignment(align) <= 0x8000_0000 && align <= WORD - 4
    ensures TotalSize(size, align) < size
  {
  }

  lemma {:induction false} PowerDivides(a: int, k: nat)
    requires PowerOfTwo(a) && a <= Power(k)
    ensures a > 0 && Power(k) % a == 0
  {
    PowerPositive(a);
    if a > 1 {
      PowerDivides(a / 2, k - 1);
      TwiceMultiple(Power(k - 1), a / 2);
    }
  }

  lemma TwiceMultiple(x: int, b: int)
    requires b > 0 && x % b == 0
    ensures 2 * x % (2 * b) == 0
  {
    assert x == x / b * b;
    Regroup2(x / b, b);
    Multiple(x / b, 2 * b);
  }

  lemma Regroup2(q: int, b: int)
    ensures 2 * (q * b) == q * (2 * b)
  {
  }

  lemma WordDivided(a: int)
    requires PowerOfTwo(a) && a <= 0x8000_0000
    ensures a > 0 && WORD % a == 0
  {
    hide PowerOfTwo;
    assert Power(8) == 256;
    assert Power(16) == 65536;
    assert Power(24) == 0x100_0000;
    assert Power(32) == WORD;
    PowerDivides(a, 32);
  }

  /** An address that wraps keeps its alignment. */
  lemma WrapAligned(x: int, a: int)
    requires a > 0 && WORD % a == 0 && 0 <= x < 2 * WORD && IsAligned(x, a)
    ensures IsAligned(x % WORD, a)
  {
    if x >= WORD {
      assert x == x / a * a && WORD == WORD / a * a;
      Difference(x / a, WORD / a, a);
      Multiple(x / a - WORD / a, a);
    }
  }

  lemma Difference(x: int, y: int, a: int)
    ensures x * a - y * a == (x - y) * a
  {
  }

  lemma PointerAlignedTo(ptr: u32, a: u32)
    requires a >= 4 && a % 4 == 0 && WORD % a == 0
    ensures var p := AlignedPointer(ptr, a); 0 <= p < WORD && IsAligned(p, a)
  {
    if IsAligned(ptr, a) {
      ShiftAligned(ptr, a);
      WrapAligned(ptr + a, a);
      hide *;
    } else {
      DownFacts((ptr + a - 1) % WORD, a);
      hide IsAligned, Down;
    }
  }

  /** For every block the pointer is aligned, even where the arithmetic wraps. */
  lemma PointerAligned(ptr: u32, align: u32)
    requires PowerOfTwo(align)
    ensures Alignment(align) > 0 && align > 0
    ensures var p := AlignedPointer(ptr, Alignment(align)); 0 <= p < WORD && p % 4 == 0 && IsAligned(p, align)
  {
    HalfSpace(align);
    AlignmentFacts(align);
    PowerPositive(align);
    WordDivided(Alignment(align));
    PointerAlignedTo(ptr, Alignment(align));
    hide PowerOfTwo, IsAligned, AlignedPointer;
    WordMultiple(AlignedPointer(ptr, Alignment(align)), Alignment(align));
    Stricter(AlignedPointer(ptr, Alignment(align)), align);
  }

  // Memory, one word at every word address.

  type Memory = map<int, u32>

  /** A word that the caller stores, at an offset from the pointer it was given. */
  datatype Store = Store(offset: nat, value: u32)

  /** These words are all among the `size` bytes the caller asked for. */
  predicate Own(stores: seq<Store>, size: u32) {
    forall s :: s in stores ==> s.offset % 4 == 0 && s.offset + 4 <= size
  }

  function Stored(m: Memory, p: int, stores: seq<Store>): Memory
    decreases |stores|
  {
    if stores == [] then m else Stored(m[(p + stores[0].offset) % WORD := stores[0].value], p, stores[1..])
  }

  /** The caller's words are its own: the word before them stays, even where addresses wrap. */
  lemma {:induction false} StoresKeep(m: Memory, p: u32, stores: seq<Store>, size: u32)
    requires (p - 4) % WORD in m && p % 4 == 0 && Own(stores, size)
    ensures (p - 4) % WORD in Stored(m, p, stores) && Stored(m, p, stores)[(p - 4) % WORD] == m[(p - 4) % WORD]
    decreases |stores|
  {
    if stores != [] {
      assert stores[0] in stores && forall s :: s in stores[1..] ==> s in stores;
      AnotherWord(p, stores[0].offset);
      StoresKeep(m[(p + stores[0].offset) % WORD := stores[0].value], p, stores[1..], size);
    }
  }

  lemma AnotherWord(p: u32, offset: nat)
    requires p % 4 == 0 && offset % 4 == 0 && offset + 4 < WORD
    ensures (p + offset) % WORD != (p - 4) % WORD
  {
  }

  class Words {
    var memory: Memory

    constructor ()
      ensures memory == map[]
    {
      memory := map[];
    }

    /** rt_malloc_align, given what rt_malloc returned for TotalSize bytes (0 for a null pointer). */
    method MallocAlign(ptr: u32, size: u32, align: u32) returns (p: u32)
      requires PowerOfTwo(align) && (ptr != 0 ==> Block(ptr, size, align))
      modifies this
      ensures ptr == 0 ==> p == 0 && memory == old(memory)
      ensures ptr != 0 ==> align > 0 && IsAligned(p, align) && p % 4 == 0
                           && memory == old(memory)[(p - 4) % WORD := ptr]
      ensures ptr != 0 ==> (ptr <= p - 4 && p + size <= ptr + TotalSize(size, align) <==> Fits(size, align))
    {
      hide PowerOfTwo, IsAligned, AlignedPointer;
      if ptr == 0 {
        return 0;
      }
      PointerAligned(ptr, align);
      AlignedInside(ptr, size, align);
      p := AlignedPointer(ptr, Alignment(align));
      memory := memory[(p - 4) % WORD := ptr];
    }

    /** rt_free_align: the pointer it hands to rt_free. */
    method FreeAlign(p: u32) returns (base: u32)
      requires (p - 4) % WORD in memory
      ensures base == memory[(p - 4) % WORD]
    {
      base := memory[(p - 4) % WORD];
    }

    /** Whatever the caller stores in its own bytes, rt_free_align gets exactly the pointer that rt_malloc returned. */
    method RoundTrip(ptr: u32, size: u32, align: u32, stores: seq<Store>) returns (p: u32, base: u32)
      requires PowerOfTwo(align) && ptr != 0 && Block(ptr, size, align) && Own(stores, size)
      modifies this
      ensures base == ptr
    {
      hide *;
      p := MallocAlign(ptr, size, align);
      StoresKeep(memory, p, stores, size);
      memory := Stored(memory, p, stores);
      base := FreeAlign(p);
    }
  }
}
