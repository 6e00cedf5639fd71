/** Find-first-set as kservice.c does it, and single bits of the scheduler's ready masks. */
module Ffs {

  // Words are bit-vectors; bit numbers, like priorities, are integers.

  lemma SmallByte(i: int, n: int)
    requires 0 <= i < n && (n == 8 || n == 32)
    ensures i as bv8 < n as bv8 && (i as bv8) as int == i
  {
  }

  lemma SameByte(i: int, j: int)
    requires 0 <= i < 32 && 0 <= j < 32
    ensures i as bv8 == j as bv8 <==> i == j
  {
    BackByte(i);
    BackByte(j);
  }

  lemma BackByte(i: int)
    requires 0 <= i < 32
    ensures (i as bv8) as int == i
  {
  }

  function And32(g: bv32, m: bv32): bv32 { g & m }

  function Or32(g: bv32, m: bv32): bv32 { g | m }

  function AndNot32(g: bv32, m: bv32): bv32 { g & !m }

  function Shift32(i: bv8): bv32
    requires i < 32
  {
    1 << i
  }

  /** The mask with only bit i set. */
  function Mask32(i: int): bv32
    requires 0 <= i < 32
  {
    SmallByte(i, 32);
    Shift32(i as bv8)
  }

  predicate Bit32(g: bv32, i: int) { 0 <= i < 32 && And32(g, Mask32(i)) != 0 }

  lemma OrKeeps32(g: bv32, m: bv32, n: bv32)
    requires And32(m, n) == 0
    ensures And32(Or32(g, m), n) == And32(g, n)
  {
    assert (g | m) & n == g & n;
  }

  lemma AndKeeps32(g: bv32, m: bv32, n: bv32)
    requires And32(m, n) == 0
    ensures And32(AndNot32(g, m), n) == And32(g, n)
  {
  }

  lemma OrSets32(g: bv32, m: bv32)
    ensures And32(Or32(g, m), m) == m
  {
  }

  lemma AndClears32(g: bv32, m: bv32)
    ensures And32(AndNot32(g, m), m) == 0
  {
  }

  lemma OneHot32(i: bv8, j: bv8)
    requires i < 32 && j < 32
    ensures And32(Shift32(i), Shift32(j)) == 0 <==> i != j
  {
  }

  lemma ShiftNotZero32(i: bv8)
    requires i < 32
    ensures Shift32(i) != 0
  {
  }

  /** `word |= mask`. */
  lemma SetBit32(g: bv32, i: int, j: int)
    requires 0 <= i < 32
    ensures Bit32(Or32(g, Mask32(i)), j) <==> Bit32(g, j) || i == j
  {
    hide And32, Or32, Shift32;
    if 0 <= j < 32 {
      SmallByte(i, 32);
      SmallByte(j, 32);
      if i == j {
        OrSets32(g, Mask32(i));
        ShiftNotZero32(i as bv8);
      } else {
        SameByte(i, j);
        OneHot32(i as bv8, j as bv8);
        OrKeeps32(g, Mask32(i), Mask32(j));
      }
    }
  }

  /** `word &= ~mask`. */
  lemma ClearBit32(g: bv32, i: int, j: int)
    requires 0 <= i < 32
    ensures Bit32(AndNot32(g, Mask32(i)), j) <==> Bit32(g, j) && i != j
  {
    hide And32, AndNot32, Shift32;
    if 0 <= j < 32 {
      SmallByte(i, 32);
      SmallByte(j, 32);
      if i == j {
        AndClears32(g, Mask32(i));
      } else {
        SameByte(i, j);
        OneHot32(i as bv8, j as bv8);
        AndKeeps32(g, Mask32(i), Mask32(j));
      }
    }
  }

  /** `a & b`. */
  lemma AndBit32(a: bv32, b: bv32, i: int)
    ensures Bit32(And32(a, b), i) <==> Bit32(a, i) && Bit32(b, i)
  {
    hide And32, Or32, AndNot32, Shift32;
    if 0 <= i < 32 {
      SmallByte(i, 32);
      OneBit32(a, i as bv8);
      OneBit32(b, i as bv8);
      AndMask32(a, b, Shift32(i as bv8));
    }
  }

  lemma OneBit32(g: bv32, i: bv8)
    requires i < 32
    ensures Shift32(i) != 0 && (And32(g, Shift32(i)) == 0 || And32(g, Shift32(i)) == Shift32(i))
  {
  }

  lemma AndMask32(a: bv32, b: bv32, m: bv32)
    ensures And32(And32(a, b), m) == And32(And32(a, m), And32(b, m)) && And32(0, m) == 0 == And32(m, 0)
    ensures And32(m, m) == m && And32(0, 0) == 0
  {
    assert (a & b) & m == (a & m) & (b & m);
  }

  /** `a & ~b`. */
  lemma AndNotBit32(a: bv32, b: bv32, i: int)
    ensures Bit32(AndNot32(a, b), i) <==> Bit32(a, i) && !Bit32(b, i)
  {
    hide And32, Shift32;
    if 0 <= i < 32 {
      SmallByte(i, 32);
      AndBit32(a, !b, i);
      AndNotIs32(a, b);
      OneBit32(b, i as bv8);
      NotMask32(b, Shift32(i as bv8));
    }
  }

  lemma AndNotIs32(a: bv32, b: bv32)
    ensures AndNot32(a, b) == And32(a, !b)
  {
  }

  lemma NotMask32(b: bv32, m: bv32)
    ensures And32(b, m) == 0 ==> And32(!b, m) == m
    ensures And32(b, m) == m ==> And32(!b, m) == 0
  {
  }

  lemma BitRange32(g: bv32, i: int)
    ensures Bit32(g, i) ==> 0 <= i < 32
  {
  }

  lemma BitNotZero32(g: bv32, i: int)
    ensures Bit32(g, i) ==> g != 0
  {
  }

  function And8(b: bv8, m: bv8): bv8 { b & m }

  function Or8(b: bv8, m: bv8): bv8 { b | m }

  function AndNot8(b: bv8, m: bv8): bv8 { b & !m }

  function Shift8(i: bv8): bv8
    requires i < 8
  {
    1 << i
  }

  /** The mask with only bit i set. */
  function Mask8(i: int): bv8
    requires 0 <= i < 8
  {
    SmallByte(i, 8);
    Shift8(i as bv8)
  }

  predicate Bit8(b: bv8, i: int) { 0 <= i < 8 && And8(b, Mask8(i)) != 0 }

  lemma OrKeeps8(b: bv8, m: bv8, n: bv8)
    requires And8(m, n) == 0
    ensures And8(Or8(b, m), n) == And8(b, n)
  {
    assert (b | m) & n == b & n;
  }

  lemma AndKeeps8(b: bv8, m: bv8, n: bv8)
    requires And8(m, n) == 0
    ensures And8(AndNot8(b, m), n) == And8(b, n)
  {
  }

  lemma OrSets8(b: bv8, m: bv8)
    ensures And8(Or8(b, m), m) == m
  {
  }

  lemma AndClears8(b: bv8, m: bv8)
    ensures And8(AndNot8(b, m), m) == 0
  {
  }

  lemma OneHot8(i: bv8, j: bv8)
    requires i < 8 && j < 8
    ensures And8(Shift8(i), Shift8(j)) == 0 <==> i != j
  {
  }

  lemma ShiftNotZero8(i: bv8)
    requires i < 8
    ensures Shift8(i) != 0
  {
  }

  /** `word |= mask`. */
  lemma SetBit8(b: bv8, i: int, j: int)
    requires 0 <= i < 8
    ensures Bit8(Or8(b, Mask8(i)), j) <==> Bit8(b, j) || i == j
  {
    hide And8, Or8, Shift8;
    if 0 <= j < 8 {
      SmallByte(i, 8);
      SmallByte(j, 8);
      if i == j {
        OrSets8(b, Mask8(i));
        ShiftNotZero8(i as bv8);
      } else {
        SameByte(i, j);
        OneHot8(i as bv8, j as bv8);
        OrKeeps8(b, Mask8(i), Mask8(j));
      }
    }
  }

  /** `word &= ~mask`. */
  lemma ClearBit8(b: bv8, i: int, j: int)
    requires 0 <= i < 8
    ensures Bit8(AndNot8(b, Mask8(i)), j) <==> Bit8(b, j) && i != j
  {
    hide And8, AndNot8, Shift8;
    if 0 <= j < 8 {
      SmallByte(i, 8);
      SmallByte(j, 8);
      if i == j {
        AndClears8(b, Mask8(i));
      } else {
        SameByte(i, j);
        OneHot8(i as bv8, j as bv8);
        AndKeeps8(b, Mask8(i), Mask8(j));
      }
    }
  }

  lemma BitNotZero8(b: bv8, i: int)
    ensures Bit8(b, i) ==> b != 0
  {
  }

  /** One line of __lowest_bit_bitmap: the lines differ only in their first entry. */
  function BitmapRow(first: bv8): (r: seq<bv8>)
    ensures |r| == 16
  {
    [first, 0, 1, 0, 2, 0, 1, 0, 3, 0, 1, 0, 2, 0, 1, 0]
  }

  const LOWEST_BIT_BITMAP: seq<bv8> :=
    BitmapRow(0) + BitmapRow(4) + BitmapRow(5) + BitmapRow(4) +
    BitmapRow(6) + BitmapRow(4) + BitmapRow(5) + BitmapRow(4) +
    BitmapRow(7) + BitmapRow(4) + BitmapRow(5) + BitmapRow(4) +
    BitmapRow(6) + BitmapRow(4) + BitmapRow(5) + BitmapRow(4)

  function FirstOfRow(r: nat): bv8 {
    match r
    case 0 => 0
    case 2 => 5
    case 4 => 6
    case 6 => 5
    case 8 => 7
    case 10 => 5
    case 12 => 6
    case 14 => 5
    case _ => 4
  }

  lemma BitmapAt(r: nat, c: nat)
    requires r < 16 && c < 16
    ensures |LOWEST_BIT_BITMAP| == 256 && LOWEST_BIT_BITMAP[16 * r + c] == BitmapRow(FirstOfRow(r))[c]
  {
    hide BitmapRow;
  }

  lemma HighLow(b: bv8)
    ensures b as int == 16 * ((b >> 4) as int) + ((b & 15) as int)
  {
  }

  /** t is the lowest set bit of b. */
  predicate Lowest8(b: bv8, t: bv8) {
    t < 8 && b & (1 << t) != 0 && b & ((1 << t) - 1) == 0
  }

  lemma RowEntry(b: bv8)
    requires b != 0
    ensures Lowest8(b, BitmapRow(FirstOfRow((b >> 4) as int))[(b & 15) as int])
  {
    var c := b & 15;
    if c == 0 {
      RowFirst(b >> 4);
    } else {
      RowRest(c, FirstOfRow((b >> 4) as int));
    }
  }

  lemma RowFirst(r: bv8)
    requires 0 < r < 16
    ensures Lowest8(r << 4, FirstOfRow(r as int))
  {
  }

  lemma RowRest(c: bv8, first: bv8)
    requires 0 < c < 16
    ensures Lowest8(c, BitmapRow(first)[c as int]) && BitmapRow(first)[c as int] < 4
  {
  }

  /** Every entry of the table is the lowest set bit of its index. */
  lemma BitmapLowest(b: bv8)
    requires b != 0
    ensures |LOWEST_BIT_BITMAP| == 256 && Lowest8(b, LOWEST_BIT_BITMAP[b as int])
  {
    hide BitmapRow, Lowest8, FirstOfRow;
    HighLow(b);
    BitmapAt((b >> 4) as int, (b & 15) as int);
    RowEntry(b);
  }

  function Lookup(b: bv8): (r: int)
    ensures 0 <= r < 256
  {
    BitmapAt(0, 0);
    LOWEST_BIT_BITMAP[b as int] as int
  }

  /** i is the lowest set bit of g. */
  ghost predicate Lowest32(g: bv32, i: int) {
    Bit32(g, i) && forall j :: Bit32(g, j) ==> i <= j
  }

  /** __rt_ffs. */
  function RtFfs(value: bv32): int {
    if value == 0 then 0
    else if value & 0xff != 0 then Lookup((value & 0xff) as bv8) + 1
    else if value & 0xff00 != 0 then Lookup(((value & 0xff00) >> 8) as bv8) + 9
    else if value & 0xff0000 != 0 then Lookup(((value & 0xff0000) >> 16) as bv8) + 17
    else Lookup(((value & 0xff000000) >> 24) as bv8) + 25
  }

  /** 0 for 0, else one more than the number of the lowest set bit. */
  lemma RtFfsLowest(value: bv32)
    ensures value == 0 <==> RtFfs(value) == 0
    ensures value != 0 ==> Lowest32(value, RtFfs(value) - 1)
  {
    hide Lookup, Lowest32;
    if value == 0 {
    } else if value & 0xff != 0 {
      FfsByte0(value);
    } else if value & 0xff00 != 0 {
      FfsByte1(value);
    } else if value & 0xff0000 != 0 {
      FfsByte2(value);
    } else {
      FfsByte3(value);
    }
  }

  // The table lookup at the lowest byte that is not zero.

  lemma FfsByte0(value: bv32)
    requires value & 0xff != 0
    ensures Lowest32(value, Lookup((value & 0xff) as bv8) + 0)
  {
    var b := (value & 0xff) as bv8;
    hide Lowest32, LowestRaw, Lowest8;
    BitmapLowest(b);
    var t := LOWEST_BIT_BITMAP[b as int];
    ByteLowest0(value, t);
    RawLowest(value, 0 + t);
    SumByte(t, 0);
  }

  lemma FfsByte1(value: bv32)
    requires value & 0xff == 0 && value & 0xff00 != 0
    ensures Lowest32(value, Lookup(((value & 0xff00) >> 8) as bv8) + 8)
  {
    var b := ((value & 0xff00) >> 8) as bv8;
    hide Lowest32, LowestRaw, Lowest8;
    BitmapLowest(b);
    var t := LOWEST_BIT_BITMAP[b as int];
    ByteLowest1(value, t);
    RawLowest(value, 8 + t);
    SumByte(t, 8);
  }

  lemma FfsByte2(value: bv32)
    requires value & 0xffff == 0 && value & 0xff0000 != 0
    ensures Lowest32(value, Lookup(((value & 0xff0000) >> 16) as bv8) + 16)
  {
    var b := ((value & 0xff0000) >> 16) as bv8;
    hide Lowest32, LowestRaw, Lowest8;
    BitmapLowest(b);
    var t := LOWEST_BIT_BITMAP[b as int];
    ByteLowest2(value, t);
    RawLowest(value, 16 + t);
    SumByte(t, 16);
  }

  lemma FfsByte3(value: bv32)
    requires value & 0xffffff == 0 && value != 0
    ensures Lowest32(value, Lookup(((value & 0xff000000) >> 24) as bv8) + 24)
  {
    var b := ((value & 0xff000000) >> 24) as bv8;
    hide Lowest32, LowestRaw, Lowest8;
    BitmapLowest(b);
    var t := LOWEST_BIT_BITMAP[b as int];
    ByteLowest3(value, t);
    RawLowest(value, 24 + t);
    SumByte(t, 24);
  }

  lemma SumByte(t: bv8, shift: bv8)
    requires t < 8 && shift <= 24
    ensures (shift + t) as int == t as int + shift as int
  {
  }

  /** t is the lowest set bit, said of words alone. */
  predicate LowestRaw(g: bv32, t: bv8) {
    t < 32 && g & (1 << t) != 0 && g & ((1 << t) - 1) == 0
  }

  lemma ByteLowest0(value: bv32, t: bv8)
    requires Lowest8((value & 0xff) as bv8, t)
    ensures LowestRaw(value, 0 + t) && t < 8
  {
  }

  lemma ByteLowest1(value: bv32, t: bv8)
    requires value & 0xff == 0 && Lowest8(((value & 0xff00) >> 8) as bv8, t)
    ensures LowestRaw(value, 8 + t) && t < 8
  {
  }

  lemma ByteLowest2(value: bv32, t: bv8)
    requires value & 0xffff == 0 && Lowest8(((value & 0xff0000) >> 16) as bv8, t)
    ensures LowestRaw(value, 16 + t) && t < 8
  {
  }

  lemma ByteLowest3(value: bv32, t: bv8)
    requires value & 0xffffff == 0 && Lowest8(((value & 0xff000000) >> 24) as bv8, t)
    ensures LowestRaw(value, 24 + t) && t < 8
  {
  }

  lemma RawLowest(g: bv32, t: bv8)
    requires LowestRaw(g, t)
    ensures Lowest32(g, t as int)
  {
    hide Bit32;
    RawBit(g, t);
    forall j | Bit32(g, j) ensures t as int <= j {
      RawFirst(g, t, j);
    }
  }

  lemma RawBit(g: bv32, t: bv8)
    requires LowestRaw(g, t)
    ensures Bit32(g, t as int)
  {
  }

  lemma RawFirst(g: bv32, t: bv8, j: int)
    requires LowestRaw(g, t) && Bit32(g, j)
    ensures t as int <= j
  {
    SmallByte(j, 32);
    RawBelow(g, t, j as bv8);
  }

  lemma RawBelow(g: bv32, t: bv8, j: bv8)
    requires LowestRaw(g, t) && j < 32 && g & (1 << j) != 0
    ensures t <= j && t as int <= j as int
  {
  }

  /** A table byte, widened for __rt_ffs. */
  lemma Widen(b: bv8, i: int)
    ensures Bit32(b as bv32, i) <==> Bit8(b, i)
  {
    hide And32, And8, Shift32, Shift8;
    if 0 <= i < 32 {
      SmallByte(i, 32);
      WidenTest(b, i as bv8, b as bv32);
      if i < 8 {
        SmallByte(i, 8);
      }
    }
  }

  lemma WidenTest(b: bv8, i: bv8, g: bv32)
    requires i < 32 && g == b as bv32
    ensures And32(g, Shift32(i)) != 0 <==> i < 8 && And8(b, Shift8(i)) != 0
  {
    WidenRaw(b, i);
    var m := Shift32(i);
    assert m == 1 << i;
    if i < 8 {
      var n := Shift8(i);
      assert n == 1 << i;
    }
  }

  lemma WidenRaw(b: bv8, i: bv8)
    requires i < 32
    ensures i >= 8 ==> (b as bv32) & (1 << i) == 0
    ensures i < 8 ==> ((b as bv32) & (1 << i) != 0 <==> b & (1 << i) != 0)
  {
  }

  lemma WidenZero(b: bv8)
    ensures b as bv32 == 0 <==> b == 0
  {
  }

  lemma AndNotZero(b: bv8, m: bv8)
    ensures b == 0 ==> AndNot8(b, m) == 0
  {
  }
}
