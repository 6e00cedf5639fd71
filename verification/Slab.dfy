/** The slab allocator (slab.c): zones of equal chunks on top of the page allocator.

    Addresses are byte offsets from heap_start, which is page-aligned. */
module Slab {
  import opened Word
  import opened Pages
  import opened Seqs
  import opened SizeClass

  /** struct slab_zone; the zone is named by its first page. */
  datatype Zone = Zone(nfree: int, nmax: int, base: int, uindex: int, chunkSize: int, zoneIndex: int,
                       freeChunks: seq<int>)

  datatype PageType = TypeFree | TypeSmall | TypeLarge

  /** struct memusage. */
  datatype Usage = Usage(kind: PageType, size: int)

  /** Chunk `index` of zone `zone`. */
  datatype Place = Place(zone: int, index: int)

  function Address(z: int, size: int, i: int): int
    requires size > 0
  {
    ChunkAddress(z * PAGE, size, i)
  }

  /** One zone: z_nfree counts the chunks never handed out and those on the free list; `idx` are the numbers of the
      latter. */
  ghost predicate ZoneOk(zoneSize: int, z: int, c: Zone, idx: seq<int>) {
    && 0 <= c.zoneIndex < NZONES && c.chunkSize == ChunkOf(c.zoneIndex) && 0 < c.chunkSize <= ZoneLimit(zoneSize)
    && c.base == z * PAGE + ZoneOffset(c.chunkSize) && c.nmax == ZoneChunks(zoneSize, c.chunkSize)
    && 0 <= c.uindex < c.nmax
    && c.nfree == (c.nmax - 1 - c.uindex) + |c.freeChunks|
    && |idx| == |c.freeChunks| && NoRepeats(idx)
    && forall k {:trigger idx[k]} {:trigger c.freeChunks[k]} :: 0 <= k < |idx| ==>
         0 <= idx[k] <= c.uindex && c.freeChunks[k] == Address(z, c.chunkSize, idx[k])
  }

  ghost predicate ZonesOk(zoneSize: int, zones: map<int, Zone>, freeIndex: map<int, seq<int>>) {
    forall z {:trigger z in zones} :: z in zones ==> z in freeIndex && ZoneOk(zoneSize, z, zones[z], freeIndex[z])
  }

  /** A zone is on the list of its class exactly when it has a free chunk. */
  ghost predicate ListsOk(zones: map<int, Zone>, zoneArray: map<int, seq<int>>) {
    forall zi {:trigger zi in zoneArray} :: 0 <= zi < NZONES ==> zi in zoneArray && ListOk(zones, zoneArray[zi], zi)
  }

  ghost predicate ListOk(zones: map<int, Zone>, q: seq<int>, zi: int) {
    NoRepeats(q) && forall z {:trigger z in q} {:trigger z in zones} :: z in q <==>
        z in zones && zones[z].zoneIndex == zi && zones[z].nfree > 0
  }

  /** The pages from b on, n of them, belong to the block that starts at b. */
  ghost predicate Owns(blockOf: map<int, int>, b: int, n: int) {
    forall x {:trigger x in blockOf} {:trigger blockOf[x]} :: b <= x < b + n ==> x in blockOf && blockOf[x] == b
  }

  /** memusage leads from every page of a zone back to its first page. */
  ghost predicate Leads(usage: map<int, Usage>, z: int, cnt: int) {
    forall x {:trigger x in usage} {:trigger usage[x]} :: z <= x < z + cnt ==>
        x in usage && usage[x] == Usage(TypeSmall, x - z)
  }

  ghost predicate ZonePagesOk(cnt: int, zones: map<int, Zone>, zoneFree: seq<int>, usage: map<int, Usage>,
                              blockOf: map<int, int>) {
    && cnt > 0 && NoRepeats(zoneFree)
    && (forall z {:trigger z in zones} :: z in zones ==>
        z !in zoneFree && Owns(blockOf, z, cnt) && Leads(usage, z, cnt))
    && (forall z {:trigger z in zoneFree} :: z in zoneFree ==> Owns(blockOf, z, cnt) && Leads(usage, z, cnt))
  }

  ghost predicate LargeOk(zones: map<int, Zone>, zoneFree: seq<int>, large: map<int, int>, usage: map<int, Usage>,
                          blockOf: map<int, int>) {
    forall b {:trigger b in large} :: b in large ==>
      large[b] > 0 && b !in zones && b !in zoneFree && Owns(blockOf, b, large[b]) && b in usage
        && usage[b] == Usage(TypeLarge, large[b])
  }

  /** The pages in use are exactly those that are not free, and free and used pages make up the heap. */
  ghost predicate Covers(runs: seq<Run>, total: int, blockOf: map<int, int>) {
    && (forall x {:trigger x in blockOf} {:trigger InRuns(runs, x)} ::
          x in blockOf <==> 0 <= x < total && !InRuns(runs, x))
    && Total(runs) + |blockOf| == total
  }

  /** The live chunks: those handed out and not free, no more and no less. */
  ghost predicate OwnersOk(zones: map<int, Zone>, freeIndex: map<int, seq<int>>, owner: map<int, Place>) {
    && (forall a {:trigger a in owner} :: a in owner ==>
         && owner[a].zone in zones && owner[a].zone in freeIndex && zones[owner[a].zone].chunkSize > 0
         && 0 <= owner[a].index <= zones[owner[a].zone].uindex && owner[a].index !in freeIndex[owner[a].zone]
         && a == Address(owner[a].zone, zones[owner[a].zone].chunkSize, owner[a].index))
    && forall z, i {:trigger Live(zones, freeIndex, owner, z, i)} ::
         z in zones && z in freeIndex && 0 <= i <= zones[z].uindex && i !in freeIndex[z] ==>
         Live(zones, freeIndex, owner, z, i)
  }

  ghost predicate Live(zones: map<int, Zone>, freeIndex: map<int, seq<int>>, owner: map<int, Place>, z: int, i: int) {
    z in zones && zones[z].chunkSize > 0 && Address(z, zones[z].chunkSize, i) in owner
      && owner[Address(z, zones[z].chunkSize, i)] == Place(z, i)
  }

  /** btokup and the step back that rt_free makes. */
  function Recovered(usage: map<int, Usage>, a: int): int {
    var x := a / PAGE;
    if x in usage then x - usage[x].size else -1
  }

  /** rt_free finds the zone of any chunk of any zone. */
  lemma RecoversZone(zoneSize: int, zones: map<int, Zone>, freeIndex: map<int, seq<int>>, zoneFree: seq<int>,
                     usage: map<int, Usage>, blockOf: map<int, int>, z: int, i: int)
    requires ZoneSizeOk(zoneSize) && ZonesOk(zoneSize, zones, freeIndex)
             && ZonePagesOk(zoneSize / PAGE, zones, zoneFree, usage, blockOf)
    requires z in zones && 0 <= i < zones[z].nmax
    ensures zones[z].chunkSize > 0
    ensures var a := Address(z, zones[z].chunkSize, i);
            && a / PAGE in usage && usage[a / PAGE].kind == TypeSmall && Recovered(usage, a) == z
            && z * PAGE + ZONE_HEADER <= a && a + zones[z].chunkSize <= z * PAGE + zoneSize
            && a / PAGE in blockOf && blockOf[a / PAGE] == z
  {
    var c := zones[z];
    assert ZoneOk(zoneSize, z, c, freeIndex[z]);
    ZoneLayout(zoneSize, c.zoneIndex);
    if i == 0 {
      ChunksApart(z * PAGE, zoneSize, c.zoneIndex, 0, 1);
    } else {
      ChunksApart(z * PAGE, zoneSize, c.zoneIndex, 0, i);
    }
    hide ZoneOffset, ZoneChunks, ChunkOf, ChunkAddress, ZoneOk, ZonesOk;
    InPages(z, zoneSize, Address(z, c.chunkSize, i));
  }

  lemma InPages(z: int, zoneSize: int, a: int)
    requires ZoneSizeOk(zoneSize) && z * PAGE <= a < z * PAGE + zoneSize
    ensures z <= a / PAGE < z + zoneSize / PAGE
  {
  }

  /** Two different chunks of zones never overlap. */
  lemma ChunksDisjoint(zoneSize: int, zones: map<int, Zone>, freeIndex: map<int, seq<int>>, zoneFree: seq<int>,
                       usage: map<int, Usage>, blockOf: map<int, int>,
                       z1: int, i1: int, z2: int, i2: int)
    requires ZoneSizeOk(zoneSize) && ZonesOk(zoneSize, zones, freeIndex)
             && ZonePagesOk(zoneSize / PAGE, zones, zoneFree, usage, blockOf)
    requires z1 in zones && 0 <= i1 < zones[z1].nmax && z2 in zones && 0 <= i2 < zones[z2].nmax
             && (z1 != z2 || i1 != i2)
    ensures zones[z1].chunkSize > 0 && zones[z2].chunkSize > 0
    ensures var a1, a2 := Address(z1, zones[z1].chunkSize, i1), Address(z2, zones[z2].chunkSize, i2);
            a1 + zones[z1].chunkSize <= a2 || a2 + zones[z2].chunkSize <= a1
  {
    RecoversZone(zoneSize, zones, freeIndex, zoneFree, usage, blockOf, z1, i1);
    RecoversZone(zoneSize, zones, freeIndex, zoneFree, usage, blockOf, z2, i2);
    if z1 == z2 {
      var c := zones[z1];
      assert ZoneOk(zoneSize, z1, c, freeIndex[z1]);
      ChunksApart(z1 * PAGE, zoneSize, c.zoneIndex, if i1 < i2 then i1 else i2, if i1 < i2 then i2 else i1);
    } else {
      hide Address;
      ZonesApart(zoneSize, zones, zoneFree, usage, blockOf, z1, z2);
    }
  }

  lemma ZonesApart(zoneSize: int, zones: map<int, Zone>, zoneFree: seq<int>, usage: map<int, Usage>,
                   blockOf: map<int, int>, z1: int, z2: int)
    requires ZoneSizeOk(zoneSize) && ZonePagesOk(zoneSize / PAGE, zones, zoneFree, usage, blockOf) && z1 in zones
             && z2 in zones && z1 != z2
    ensures z1 * PAGE + zoneSize <= z2 * PAGE || z2 * PAGE + zoneSize <= z1 * PAGE
  {
    var cnt := zoneSize / PAGE;
    assert Owns(blockOf, z1, cnt) && Owns(blockOf, z2, cnt);
    assert z1 in blockOf && z2 in blockOf;
  }

  /** The zones in use and the free ones: both hold zonePageCnt pages. */
  ghost function Small(zones: map<int, Zone>, zoneFree: seq<int>): set<int> {
    zones.Keys + set z | z in zoneFree
  }

  ghost function LargePages(large: map<int, int>): int
    decreases |large|
  {
    if exists b :: b in large then
      var b :| b in large;
      DropOne(large, b);
      large[b] + LargePages(large - {b})
    else 0
  }

  /** What the pages in use are for: zones of cnt pages, live large blocks, and the memusage array. */
  datatype Books = Books(cnt: int, small: set<int>, large: map<int, int>, table: int, tableLen: int)

  /** Page x lies inside block b of the books. */
  ghost predicate Inside(k: Books, b: int, x: int) {
    || (b in k.small && b <= x < b + k.cnt)
    || (b in k.large && b <= x < b + k.large[b])
    || (b == k.table && b <= x < b + k.tableLen)
  }

  /** The pages in use are those of the zones, the live large blocks and the memusage array, and no others. */
  ghost predicate PagesOk(k: Books, blockOf: map<int, int>) {
    && k.tableLen > 0 && Owns(blockOf, k.table, k.tableLen) && k.table !in k.small && k.table !in k.large
    && (forall x {:trigger x in blockOf} :: x in blockOf ==> Inside(k, blockOf[x], x))
    && |blockOf| == k.cnt * |k.small| + LargePages(k.large) + k.tableLen
  }

  /** The whole state of the allocator above the page allocator; the memusage array is tableLen pages from `table`
      on. */
  datatype Slabs = Slabs(
    zoneSize: int, zones: map<int, Zone>, freeIndex: map<int, seq<int>>, zoneArray: map<int, seq<int>>,
    zoneFree: seq<int>, usage: map<int, Usage>, large: map<int, int>, owner: map<int, Place>,
    blockOf: map<int, int>, table: int, tableLen: int)

  ghost function BooksOf(s: Slabs): Books {
    Books(s.zoneSize / PAGE, Small(s.zones, s.zoneFree), s.large, s.table, s.tableLen)
  }

  ghost predicate SlabOk(s: Slabs) {
    && ZoneSizeOk(s.zoneSize) && ZonesOk(s.zoneSize, s.zones, s.freeIndex) && ListsOk(s.zones, s.zoneArray)
    && ZonePagesOk(s.zoneSize / PAGE, s.zones, s.zoneFree, s.usage, s.blockOf)
    && LargeOk(s.zones, s.zoneFree, s.large, s.usage, s.blockOf)
    && OwnersOk(s.zones, s.freeIndex, s.owner) && PagesOk(BooksOf(s), s.blockOf)
  }

  // Taking a chunk from a zone.

  /** The chunk rt_malloc takes from zone z: the next unused one, or else the first of the free list. */
  function TakenIndex(c: Zone, idx: seq<int>): int
    requires c.uindex + 1 == c.nmax ==> idx != []
  {
    if c.uindex + 1 != c.nmax then c.uindex + 1 else idx[0]
  }

  function TakenZone(c: Zone): Zone
    requires c.uindex + 1 == c.nmax ==> c.freeChunks != []
  {
    if c.uindex + 1 != c.nmax then c.(nfree := c.nfree - 1, uindex := c.uindex + 1)
    else c.(nfree := c.nfree - 1, freeChunks := c.freeChunks[1..])
  }

  function TakenIdx(c: Zone, idx: seq<int>): seq<int>
    requires c.uindex + 1 == c.nmax ==> idx != []
  {
    if c.uindex + 1 != c.nmax then idx else idx[1..]
  }

  lemma TakeZone(zoneSize: int, z: int, c: Zone, idx: seq<int>)
    requires ZoneOk(zoneSize, z, c, idx) && c.nfree > 0
    ensures c.uindex + 1 == c.nmax ==> idx != [] && c.freeChunks != []
                                       && c.freeChunks[0] == Address(z, c.chunkSize, idx[0])
    ensures ZoneOk(zoneSize, z, TakenZone(c), TakenIdx(c, idx))
    ensures 0 <= TakenIndex(c, idx) < c.nmax && TakenIndex(c, idx) !in TakenIdx(c, idx)
    ensures TakenIndex(c, idx) in idx || TakenIndex(c, idx) > c.uindex
    ensures forall i {:trigger i in TakenIdx(c, idx)} :: 0 <= i <= TakenZone(c).uindex && i != TakenIndex(c, idx) ==>
              (i in TakenIdx(c, idx) <==> i in idx) && i <= c.uindex
  {
    hide Address, ZoneOffset, ZoneChunks, ChunkOf;
    if c.uindex + 1 != c.nmax {
      forall i | i in idx ensures i <= c.uindex {
        var k :| 0 <= k < |idx| && idx[k] == i;
      }
    } else {
      HeadOnce(idx);
    }
  }

  /** One zone changes, its class and free-or-full status perhaps with it. */
  lemma ListsChange(zones: map<int, Zone>, zoneArray: map<int, seq<int>>, z: int, c: Zone, q: seq<int>)
    requires ListsOk(zones, zoneArray) && 0 <= c.zoneIndex < NZONES
             && (z in zones ==> zones[z].zoneIndex == c.zoneIndex)
    requires NoRepeats(q) && forall u {:trigger u in q} :: u in q <==>
               (u != z && u in zoneArray[c.zoneIndex]) || (u == z && c.nfree > 0)
    ensures ListsOk(zones[z := c], zoneArray[c.zoneIndex := q])
  {
    hide NoRepeats;
    var zones', zoneArray' := zones[z := c], zoneArray[c.zoneIndex := q];
    forall zi | 0 <= zi < NZONES ensures zi in zoneArray' && ListOk(zones', zoneArray'[zi], zi) {
      assert zi in zoneArray && ListOk(zones, zoneArray[zi], zi);
    }
  }

  lemma ZonePagesChange(cnt: int, zones: map<int, Zone>, zoneFree: seq<int>, usage: map<int, Usage>,
                        blockOf: map<int, int>, large: map<int, int>, z: int, c: Zone)
    requires ZonePagesOk(cnt, zones, zoneFree, usage, blockOf) && LargeOk(zones, zoneFree, large, usage, blockOf)
             && z in zones
    ensures ZonePagesOk(cnt, zones[z := c], zoneFree, usage, blockOf)
            && LargeOk(zones[z := c], zoneFree, large, usage, blockOf)
  {
    hide NoRepeats, Owns, Leads;
  }

  lemma ZonesChange(zoneSize: int, zones: map<int, Zone>, freeIndex: map<int, seq<int>>, z: int, c: Zone, idx: seq<int>)
    requires ZonesOk(zoneSize, zones, freeIndex) && ZoneOk(zoneSize, z, c, idx)
    ensures ZonesOk(zoneSize, zones[z := c], freeIndex[z := idx])
  {
    hide ZoneOk;
  }

  /** Chunk i of zone z is handed out. */
  lemma OwnersTake(zoneSize: int, zones: map<int, Zone>, freeIndex: map<int, seq<int>>, zoneFree: seq<int>,
                   usage: map<int, Usage>, blockOf: map<int, int>,
                   owner: map<int, Place>, z: int, c: Zone, idx: seq<int>, i: int)
    requires ZoneSizeOk(zoneSize) && ZonesOk(zoneSize, zones, freeIndex)
             && ZonePagesOk(zoneSize / PAGE, zones, zoneFree, usage, blockOf)
    requires OwnersOk(zones, freeIndex, owner) && z in zones && c.chunkSize == zones[z].chunkSize > 0
             && c.nmax == zones[z].nmax
    requires 0 <= i <= c.uindex < c.nmax && i !in idx && zones[z].uindex <= c.uindex
             && (i in freeIndex[z] || i > zones[z].uindex)
    requires forall j {:trigger j in idx} :: 0 <= j <= c.uindex && j != i ==>
               (j in idx <==> j in freeIndex[z]) && j <= zones[z].uindex
    ensures Address(z, c.chunkSize, i) !in owner
    ensures OwnersOk(zones[z := c], freeIndex[z := idx], owner[Address(z, c.chunkSize, i) := Place(z, i)])
  {
    hide Address, ZoneOk, NoRepeats;
    var a := Address(z, c.chunkSize, i);
    forall b | b in owner ensures b != a {
      var p := owner[b];
      assert ZoneOk(zoneSize, p.zone, zones[p.zone], freeIndex[p.zone]);
      UindexBelow(zoneSize, p.zone, zones[p.zone], freeIndex[p.zone]);
      assert p.zone != z || p.index != i;
      ChunksDisjoint(zoneSize, zones, freeIndex, zoneFree, usage, blockOf, p.zone, p.index, z, i);
    }
    hide ZonesOk, ZonePagesOk;
    var zones', freeIndex', owner' := zones[z := c], freeIndex[z := idx], owner[a := Place(z, i)];
    forall y, j | y in zones' && y in freeIndex' && 0 <= j <= zones'[y].uindex && j !in freeIndex'[y]
      ensures Live(zones', freeIndex', owner', y, j)
    {
      if y != z || j != i {
        assert Live(zones, freeIndex, owner, y, j);
      }
    }
  }

  lemma UindexBelow(zoneSize: int, z: int, c: Zone, idx: seq<int>)
    requires ZoneOk(zoneSize, z, c, idx)
    ensures 0 <= c.uindex < c.nmax && 0 < c.chunkSize && 0 <= c.zoneIndex < NZONES
  {
  }

  /** The state after a chunk was taken from zone z, the first on the list of class zi. */
  function Taken(s: Slabs, zi: int): Slabs
    requires zi in s.zoneArray && s.zoneArray[zi] != []
    requires s.zoneArray[zi][0] in s.zones && s.zoneArray[zi][0] in s.freeIndex
             && s.zones[s.zoneArray[zi][0]].chunkSize > 0
    requires var z := s.zoneArray[zi][0];
             s.zones[z].uindex + 1 == s.zones[z].nmax ==> s.freeIndex[z] != [] && s.zones[z].freeChunks != []
  {
    var q, z := s.zoneArray[zi], s.zoneArray[zi][0];
    var c0, idx0 := s.zones[z], s.freeIndex[z];
    var c, i := TakenZone(c0), TakenIndex(c0, idx0);
    s.(zones := s.zones[z := c], freeIndex := s.freeIndex[z := TakenIdx(c0, idx0)],
       zoneArray := s.zoneArray[zi := if c.nfree == 0 then q[1..] else q],
       owner := s.owner[Address(z, c0.chunkSize, i) := Place(z, i)])
  }

  /** rt_malloc takes a chunk from the first zone on the list of a class. */
  lemma TakeKeeps(s: Slabs, zi: int)
    requires SlabOk(s)
    requires 0 <= zi < NZONES && zi in s.zoneArray && s.zoneArray[zi] != []
    ensures var z := s.zoneArray[zi][0];
            && z in s.zones && z in s.freeIndex
            && s.zones[z].nfree > 0 && s.zones[z].chunkSize == ChunkOf(zi) > 0
            && (s.zones[z].uindex + 1 == s.zones[z].nmax ==>
                  && s.freeIndex[z] != [] && s.zones[z].freeChunks != []
                  && s.zones[z].freeChunks[0] == Address(z, ChunkOf(zi), s.freeIndex[z][0]))
            && var i := TakenIndex(s.zones[z], s.freeIndex[z]);
               && Address(z, ChunkOf(zi), i) !in s.owner
               && s.zones[z].base + i * ChunkOf(zi) == Address(z, ChunkOf(zi), i)
               && TakenZone(s.zones[z]).chunkSize == ChunkOf(zi)
               && SlabOk(Taken(s, zi))
  {
    hide ZonesOk, ZonePagesOk, LargeOk, OwnersOk, ZoneSizeOk, ChunkOf, ZoneOffset, ZoneChunks, TakenZone, TakenIdx,
      TakenIndex, PagesOk;
    var q := s.zoneArray[zi];
    var z := q[0];
    ListHead(s.zones, s.zoneArray, zi);
    ZoneAt(s.zoneSize, s.zones, s.freeIndex, z);
    var c0, idx0 := s.zones[z], s.freeIndex[z];
    TakeZone(s.zoneSize, z, c0, idx0);
    TakenShape(c0, idx0);
    var c, idx, i := TakenZone(c0), TakenIdx(c0, idx0), TakenIndex(c0, idx0);
    UindexBelow(s.zoneSize, z, c, idx);
    UindexBelow(s.zoneSize, z, c0, idx0);
    hide ZoneOk, ListsOk, NoRepeats, Address;
    ListsChange(s.zones, s.zoneArray, z, c, if c.nfree == 0 then q[1..] else q);
    ZonesChange(s.zoneSize, s.zones, s.freeIndex, z, c, idx);
    ZonePagesChange(s.zoneSize / PAGE, s.zones, s.zoneFree, s.usage, s.blockOf, s.large, z, c);
    OwnersTake(s.zoneSize, s.zones, s.freeIndex, s.zoneFree, s.usage, s.blockOf, s.owner, z, c, idx, i);
    BaseIs(s.zoneSize, z, c0, idx0, i);
    SameSmall(s.zones, s.zones[z := c], s.zoneFree, s.zoneFree);
  }

  lemma SmallIs(zones: map<int, Zone>, zoneFree: seq<int>, z: int)
    ensures z in Small(zones, zoneFree) <==> z in zones || z in zoneFree
  {
  }

  lemma SmallCons(zones: map<int, Zone>, zoneFree: seq<int>, z: int)
    ensures Small(zones, [z] + zoneFree) == Small(zones, zoneFree) + {z}
  {
  }

  lemma SmallTail(zones: map<int, Zone>, zoneFree: seq<int>)
    requires zoneFree != [] && NoRepeats(zoneFree) && zoneFree[0] !in zones
    ensures Small(zones, zoneFree[1..]) == Small(zones, zoneFree) - {zoneFree[0]}
  {
    HeadOnce(zoneFree);
    hide NoRepeats;
    forall y ensures y in Small(zones, zoneFree[1..]) <==> y in Small(zones, zoneFree) && y != zoneFree[0] {
      SmallIs(zones, zoneFree, y);
      SmallIs(zones, zoneFree[1..], y);
    }
  }

  lemma SameSmall(zones: map<int, Zone>, zones': map<int, Zone>, zoneFree: seq<int>, zoneFree': seq<int>)
    requires forall z {:trigger z in zones'} {:trigger z in zones} {:trigger z in zoneFree} {:trigger z in zoneFree'} ::
               z in zones' || z in zoneFree' <==> z in zones || z in zoneFree
    ensures Small(zones', zoneFree') == Small(zones, zoneFree)
  {
    forall z ensures z in Small(zones', zoneFree') <==> z in Small(zones, zoneFree) {
      assert z in zones'.Keys <==> z in zones';
    }
  }

  lemma BaseIs(zoneSize: int, z: int, c: Zone, idx: seq<int>, i: int)
    requires ZoneOk(zoneSize, z, c, idx)
    ensures c.chunkSize > 0 && c.base + i * c.chunkSize == Address(z, c.chunkSize, i)
  {
  }

  lemma ListHead(zones: map<int, Zone>, zoneArray: map<int, seq<int>>, zi: int)
    requires ListsOk(zones, zoneArray) && 0 <= zi < NZONES && zi in zoneArray && zoneArray[zi] != []
    ensures var q := zoneArray[zi];
            && q[0] in zones && zones[q[0]].nfree > 0 && zones[q[0]].zoneIndex == zi && NoRepeats(q)
            && NoRepeats(q[1..])
            && (forall u {:trigger u in q[1..]} {:trigger u in q} :: u in q[1..] <==> u in q && u != q[0])
  {
    assert ListOk(zones, zoneArray[zi], zi);
    var q := zoneArray[zi];
    var z := q[0];
    assert z in q;
    HeadOnce(q);
  }

  lemma ZoneAt(zoneSize: int, zones: map<int, Zone>, freeIndex: map<int, seq<int>>, z: int)
    requires ZonesOk(zoneSize, zones, freeIndex) && z in zones
    ensures z in freeIndex && ZoneOk(zoneSize, z, zones[z], freeIndex[z])
    ensures 0 <= zones[z].zoneIndex < NZONES && zones[z].chunkSize == ChunkOf(zones[z].zoneIndex) > 0
  {
  }

  lemma TakenShape(c: Zone, idx: seq<int>)
    requires c.uindex + 1 == c.nmax ==> c.freeChunks != [] && idx != []
    requires 0 <= c.uindex < c.nmax
    ensures TakenZone(c).chunkSize == c.chunkSize && TakenZone(c).nmax == c.nmax
            && TakenZone(c).zoneIndex == c.zoneIndex
    ensures TakenZone(c).nfree == c.nfree - 1 && c.uindex <= TakenZone(c).uindex
    ensures TakenZone(c).uindex == c.uindex + 1 ==> TakenIndex(c, idx) == c.uindex + 1
    ensures TakenZone(c).uindex == c.uindex || TakenZone(c).uindex == c.uindex + 1
    ensures TakenZone(c).uindex == c.uindex ==> TakenIndex(c, idx) == (if idx != [] then idx[0] else 0)
  {
  }

  // A new zone.

  /** A zone just laid out, its first chunk handed out. */
  function FreshZone(zoneSize: int, z: int, zi: int): Zone
    requires 0 <= zi < NZONES && ChunkOf(zi) > 0
  {
    var n := ZoneChunks(zoneSize, ChunkOf(zi));
    Zone(n - 1, n, z * PAGE + ZoneOffset(ChunkOf(zi)), 0, ChunkOf(zi), zi, [])
  }

  /** The state after the first of the free zones has become a zone of class zi. */
  function Opened(s: Slabs, zi: int): Slabs
    requires 0 <= zi < NZONES && ChunkOf(zi) > 0 && zi in s.zoneArray && s.zoneFree != []
  {
    var z, c := s.zoneFree[0], FreshZone(s.zoneSize, s.zoneFree[0], zi);
    s.(zones := s.zones[z := c], freeIndex := s.freeIndex[z := []],
       zoneArray := s.zoneArray[zi := [z] + s.zoneArray[zi]],
       zoneFree := s.zoneFree[1..], owner := s.owner[c.base := Place(z, 0)])
  }

  lemma OpenKeeps(s: Slabs, zi: int)
    requires SlabOk(s)
    requires 0 <= zi < NZONES && zi in s.zoneArray && s.zoneFree != [] && 0 < ChunkOf(zi) <= ZoneLimit(s.zoneSize)
    ensures var z, c := s.zoneFree[0], FreshZone(s.zoneSize, s.zoneFree[0], zi);
            && z !in s.zones && c.nfree > 0 && c.base == Address(z, ChunkOf(zi), 0) && c.base !in s.owner
            && SlabOk(Opened(s, zi))
  {
    hide ChunkOf, ZoneOffset, ZoneChunks, ZoneSizeOk, PagesOk;
    var z, c := s.zoneFree[0], FreshZone(s.zoneSize, s.zoneFree[0], zi);
    assert z in s.zoneFree;
    ZoneLayoutOk(s.zoneSize, zi);
    assert ZoneOk(s.zoneSize, z, c, []);
    OpenPages(s.zoneSize / PAGE, s.zones, s.zoneFree, s.usage, s.blockOf, s.large, c);
    assert c.base == Address(z, c.chunkSize, 0);
    HeadOnce(s.zoneFree);
    SameSmall(s.zones, s.zones[z := c], s.zoneFree, s.zoneFree[1..]);
    hide ZoneOk, Address, FreshZone, ZonePagesOk;
    ListGrows(s.zones, s.zoneArray, z, c);
    ZonesChange(s.zoneSize, s.zones, s.freeIndex, z, c, []);
    OwnersOpen(s.zoneSize, s.zones, s.freeIndex, s.zoneFree[1..], s.usage, s.blockOf, s.owner, z, c);
    hide ZonesOk, ListsOk, LargeOk, OwnersOk, Small, NoRepeats;
  }

  lemma ZoneLayoutOk(zoneSize: int, zi: int)
    requires ZoneSizeOk(zoneSize) && 0 <= zi < NZONES && 0 < ChunkOf(zi) <= ZoneLimit(zoneSize)
    ensures ZoneChunks(zoneSize, ChunkOf(zi)) >= 3
  {
    ZoneLayout(zoneSize, zi);
  }

  lemma OpenPages(cnt: int, zones: map<int, Zone>, zoneFree: seq<int>, usage: map<int, Usage>, blockOf: map<int, int>,
                  large: map<int, int>, c: Zone)
    requires ZonePagesOk(cnt, zones, zoneFree, usage, blockOf) && LargeOk(zones, zoneFree, large, usage, blockOf)
             && zoneFree != []
    ensures var z := zoneFree[0];
            z !in zones && ZonePagesOk(cnt, zones[z := c], zoneFree[1..], usage, blockOf)
              && LargeOk(zones[z := c], zoneFree[1..], large, usage, blockOf)
  {
    hide Owns, Leads;
    var z := zoneFree[0];
    assert z in zoneFree;
    HeadOnce(zoneFree);
    hide NoRepeats;
  }

  lemma ListGrows(zones: map<int, Zone>, zoneArray: map<int, seq<int>>, z: int, c: Zone)
    requires ListsOk(zones, zoneArray) && 0 <= c.zoneIndex < NZONES && c.nfree > 0
    requires z in zones ==> zones[z].zoneIndex == c.zoneIndex && zones[z].nfree == 0
    ensures c.zoneIndex in zoneArray && ListsOk(zones[z := c], zoneArray[c.zoneIndex := [z] + zoneArray[c.zoneIndex]])
  {
    var zi := c.zoneIndex;
    assert zi in zoneArray && ListOk(zones, zoneArray[zi], zi);
    assert z !in zoneArray[zi];
    ConsOnce(z, zoneArray[zi]);
    ListsChange(zones, zoneArray, z, c, [z] + zoneArray[zi]);
  }

  lemma OwnersOpen(zoneSize: int, zones: map<int, Zone>, freeIndex: map<int, seq<int>>, zoneFree: seq<int>,
                   usage: map<int, Usage>, blockOf: map<int, int>,
                   owner: map<int, Place>, z: int, c: Zone)
    requires ZoneSizeOk(zoneSize) && ZonesOk(zoneSize, zones[z := c], freeIndex[z := []])
             && ZonePagesOk(zoneSize / PAGE, zones[z := c], zoneFree, usage, blockOf)
    requires OwnersOk(zones, freeIndex, owner) && z !in zones && c.chunkSize > 0 && c.uindex == 0
             && c.base == Address(z, c.chunkSize, 0)
    ensures c.base !in owner && OwnersOk(zones[z := c], freeIndex[z := []], owner[c.base := Place(z, 0)])
  {
    hide Address, ZoneOk, NoRepeats;
    var zones', freeIndex' := zones[z := c], freeIndex[z := []];
    assert z in zones' && ZoneOk(zoneSize, z, zones'[z], freeIndex'[z]);
    UindexBelow(zoneSize, z, c, []);
    forall b | b in owner ensures b != c.base {
      var p := owner[b];
      UindexBelow(zoneSize, p.zone, zones'[p.zone], freeIndex'[p.zone]);
      ChunksDisjoint(zoneSize, zones', freeIndex', zoneFree, usage, blockOf, p.zone, p.index, z, 0);
    }
    hide ZonesOk, ZonePagesOk;
    var owner' := owner[c.base := Place(z, 0)];
    forall y, j | y in zones' && y in freeIndex' && 0 <= j <= zones'[y].uindex && j !in freeIndex'[y]
      ensures Live(zones', freeIndex', owner', y, j)
    {
      if y != z {
        assert Live(zones, freeIndex, owner, y, j);
      }
    }
  }

  // Giving a chunk back.

  function ReturnedZone(c: Zone, a: int): Zone {
    c.(nfree := c.nfree + 1, freeChunks := [a] + c.freeChunks)
  }

  /** The state after chunk a came back. */
  function Returned(s: Slabs, a: int): Slabs
    requires a in s.owner && s.owner[a].zone in s.zones && s.owner[a].zone in s.freeIndex
    requires s.zones[s.owner[a].zone].zoneIndex in s.zoneArray
  {
    var z, i := s.owner[a].zone, s.owner[a].index;
    var c, q := ReturnedZone(s.zones[z], a), s.zoneArray[s.zones[z].zoneIndex];
    s.(zones := s.zones[z := c], freeIndex := s.freeIndex[z := [i] + s.freeIndex[z]],
       zoneArray := s.zoneArray[c.zoneIndex := if s.zones[z].nfree == 0 then [z] + q else q], owner := s.owner - {a})
  }

  /** rt_free puts a live chunk on the free list of its zone, and the zone on the list of its class if it was full. */
  lemma ReturnKeeps(s: Slabs, a: int)
    requires SlabOk(s) && a in s.owner
    ensures var z := s.owner[a].zone;
            && z in s.zones && z in s.freeIndex && s.zones[z].zoneIndex in s.zoneArray
            && 0 <= s.zones[z].zoneIndex < NZONES && 0 <= s.zones[z].nfree && s.zones[z].nmax >= 3
            && (s.zones[z].nfree == 0 <==> z !in s.zoneArray[s.zones[z].zoneIndex])
            && SlabOk(Returned(s, a))
  {
    hide ZonePagesOk, LargeOk, ChunkOf, ZoneOffset, ZoneChunks, Address, PagesOk;
    var z, i := s.owner[a].zone, s.owner[a].index;
    ZoneAt(s.zoneSize, s.zones, s.freeIndex, z);
    var c0, c := s.zones[z], ReturnedZone(s.zones[z], a);
    ThreeChunks(s.zoneSize, z, c0, s.freeIndex[z]);
    ConsOnce(i, s.freeIndex[z]);
    assert ZoneOk(s.zoneSize, z, c, [i] + s.freeIndex[z]);
    assert c0.zoneIndex in s.zoneArray && ListOk(s.zones, s.zoneArray[c0.zoneIndex], c0.zoneIndex);
    hide ZoneOk, NoRepeats, ZoneSizeOk;
    if c0.nfree == 0 {
      ListGrows(s.zones, s.zoneArray, z, c);
    } else {
      ListsChange(s.zones, s.zoneArray, z, c, s.zoneArray[c0.zoneIndex]);
    }
    hide ListsOk;
    ZonesChange(s.zoneSize, s.zones, s.freeIndex, z, c, [i] + s.freeIndex[z]);
    ZonePagesChange(s.zoneSize / PAGE, s.zones, s.zoneFree, s.usage, s.blockOf, s.large, z, c);
    OwnersReturn(s.zones, s.freeIndex, s.owner, a);
    SameSmall(s.zones, s.zones[z := c], s.zoneFree, s.zoneFree);
    hide Small;
  }

  lemma ThreeChunks(zoneSize: int, z: int, c: Zone, idx: seq<int>)
    requires ZoneSizeOk(zoneSize) && ZoneOk(zoneSize, z, c, idx)
    ensures c.nmax >= 3 && c.nfree >= 0
  {
    ZoneLayout(zoneSize, c.zoneIndex);
  }

  lemma OwnersReturn(zones: map<int, Zone>, freeIndex: map<int, seq<int>>, owner: map<int, Place>, a: int)
    requires OwnersOk(zones, freeIndex, owner) && a in owner
    ensures var z, i := owner[a].zone, owner[a].index;
            OwnersOk(zones[z := ReturnedZone(zones[z], a)], freeIndex[z := [i] + freeIndex[z]], owner - {a})
  {
    hide Address;
    var z, i := owner[a].zone, owner[a].index;
    var zones', freeIndex', owner' := zones[z := ReturnedZone(zones[z], a)], freeIndex[z := [i] + freeIndex[z]],
      owner - {a};
    forall y, j | y in zones' && y in freeIndex' && 0 <= j <= zones'[y].uindex && j !in freeIndex'[y]
      ensures Live(zones', freeIndex', owner', y, j)
    {
      if y == z {
        assert freeIndex'[z][1..] == freeIndex[z];
        assert i in freeIndex'[z];
        NotInTail(freeIndex'[z], j);
      }
      assert Live(zones, freeIndex, owner, y, j);
    }
    forall b | b in owner' ensures owner'[b].index !in freeIndex'[owner'[b].zone] {
      if owner[b].zone == z {
        assert owner[b].index != i;
      }
    }
  }

  lemma NotInTail(q: seq<int>, j: int)
    requires q != [] && j !in q
    ensures j !in q[1..] && j != q[0]
  {
  }

  // A zone that has become entirely free.

  /** Nothing lives in a zone whose chunks are all free. */
  lemma NothingLives(zoneSize: int, zones: map<int, Zone>, freeIndex: map<int, seq<int>>, owner: map<int, Place>,
                     z: int)
    requires ZonesOk(zoneSize, zones, freeIndex) && OwnersOk(zones, freeIndex, owner) && z in zones
             && zones[z].nfree == zones[z].nmax
    ensures forall a {:trigger a in owner} :: a in owner ==> owner[a].zone != z
  {
    ZoneAt(zoneSize, zones, freeIndex, z);
    AllIndices(freeIndex[z], zones[z].uindex);
  }

  /** The n numbers from b on. */
  function Span(b: int, n: int): (r: set<int>)
    requires n >= 0
    ensures |r| == n && forall i {:trigger i in r} :: i in r <==> b <= i < b + n
    decreases n
  {
    if n == 0 then {} else Span(b, n - 1) + {b + n - 1}
  }

  /** u + 1 different numbers from 0 to u are all of them. */
  lemma AllIndices(idx: seq<int>, u: int)
    requires u >= 0 && NoRepeats(idx) && |idx| == u + 1 && forall k {:trigger idx[k]} :: 0 <= k < |idx| ==>
               0 <= idx[k] <= u
    ensures forall i :: 0 <= i <= u ==> i in idx
  {
    var r := Span(0, u + 1);
    var s := set i | i in idx;
    SetOf(idx);
    assert s <= r;
    assert |r - s| == |r| - |s| by { assert r == s + (r - s); }
    assert r - s == {};
    forall i | 0 <= i <= u ensures i in idx {
      assert i in r && i in s;
    }
  }

  /** The state after zone z has left its class for the free zones. */
  function Retired(s: Slabs, z: int): Slabs
    requires z in s.zones && s.zones[z].zoneIndex in s.zoneArray
  {
    var zi := s.zones[z].zoneIndex;
    s.(zones := s.zones - {z}, freeIndex := s.freeIndex - {z},
       zoneArray := s.zoneArray[zi := Minus(s.zoneArray[zi], z)], zoneFree := [z] + s.zoneFree)
  }

  /** An entirely free zone can leave its class. */
  lemma RetireKeeps(s: Slabs, z: int)
    requires SlabOk(s) && z in s.zones && s.zones[z].nfree == s.zones[z].nmax
    ensures 0 <= s.zones[z].zoneIndex < NZONES && s.zones[z].zoneIndex in s.zoneArray
    ensures SlabOk(Retired(s, z))
  {
    hide ZoneSizeOk, ChunkOf, Address, PagesOk;
    ZoneAt(s.zoneSize, s.zones, s.freeIndex, z);
    NothingLives(s.zoneSize, s.zones, s.freeIndex, s.owner, z);
    OwnersRetire(s.zones, s.freeIndex, s.owner, z);
    RetirePages(s.zoneSize / PAGE, s.zones, s.zoneFree, s.usage, s.blockOf, s.large, z);
    SameSmall(s.zones, s.zones - {z}, s.zoneFree, [z] + s.zoneFree);
    hide ZoneOk, ZonePagesOk, LargeOk, OwnersOk, Small;
    ListsRetire(s.zones, s.zoneArray, z);
  }

  lemma ListsRetire(zones: map<int, Zone>, zoneArray: map<int, seq<int>>, z: int)
    requires ListsOk(zones, zoneArray) && z in zones && 0 <= zones[z].zoneIndex < NZONES
    ensures zones[z].zoneIndex in zoneArray
            && ListsOk(zones - {z}, zoneArray[zones[z].zoneIndex := Minus(zoneArray[zones[z].zoneIndex], z)])
  {
    hide NoRepeats;
    var zi := zones[z].zoneIndex;
    assert zi in zoneArray && ListOk(zones, zoneArray[zi], zi);
    MinusMembers(zoneArray[zi], z);
    MinusNoRepeats(zoneArray[zi], z);
    var zones', zoneArray' := zones - {z}, zoneArray[zi := Minus(zoneArray[zi], z)];
    forall y | 0 <= y < NZONES ensures y in zoneArray' && ListOk(zones', zoneArray'[y], y) {
      assert y in zoneArray && ListOk(zones, zoneArray[y], y);
    }
  }

  lemma RetirePages(cnt: int, zones: map<int, Zone>, zoneFree: seq<int>, usage: map<int, Usage>, blockOf: map<int, int>,
                    large: map<int, int>, z: int)
    requires ZonePagesOk(cnt, zones, zoneFree, usage, blockOf) && LargeOk(zones, zoneFree, large, usage, blockOf)
             && z in zones
    ensures ZonePagesOk(cnt, zones - {z}, [z] + zoneFree, usage, blockOf)
            && LargeOk(zones - {z}, [z] + zoneFree, large, usage, blockOf)
  {
    hide Owns, Leads;
    ConsOnce(z, zoneFree);
    hide NoRepeats;
  }

  lemma OwnersRetire(zones: map<int, Zone>, freeIndex: map<int, seq<int>>, owner: map<int, Place>, z: int)
    requires OwnersOk(zones, freeIndex, owner) && forall a {:trigger a in owner} :: a in owner ==> owner[a].zone != z
    ensures OwnersOk(zones - {z}, freeIndex - {z}, owner)
  {
    hide Address;
    forall y, j | y in zones - {z} && y in freeIndex - {z} && 0 <= j <= zones[y].uindex && j !in freeIndex[y]
      ensures Live(zones - {z}, freeIndex - {z}, owner, y, j)
    {
      assert Live(zones, freeIndex, owner, y, j);
    }
  }

  // Pages coming and going.

  function Start(x: int, b: int): int { b }

  /** The pages from b on, n of them, become a block. */
  function Grown(blockOf: map<int, int>, b: int, n: int): map<int, int> {
    blockOf + map x | b <= x < b + n :: Start(x, b)
  }

  function Shrunk(blockOf: map<int, int>, b: int, n: int): map<int, int> {
    map x | x in blockOf && !(b <= x < b + n) :: blockOf[x]
  }

  /** None of the pages is in use. */
  ghost predicate Unused(blockOf: map<int, int>, b: int, n: int) {
    forall x {:trigger x in blockOf} :: b <= x < b + n ==> x !in blockOf
  }

  lemma GrownFacts(blockOf: map<int, int>, b: int, n: int, z: int, m: int)
    requires Unused(blockOf, b, n)
    ensures Owns(Grown(blockOf, b, n), b, n)
    ensures Owns(blockOf, z, m) ==> Owns(Grown(blockOf, b, n), z, m)
    ensures Owns(blockOf, z, m) && m > 0 && n > 0 ==> z != b && !(z <= b < z + m)
  {
    assert n > 0 ==> b !in blockOf;
    assert m > 0 && Owns(blockOf, z, m) ==> z in blockOf;
  }

  /** Blocks that start elsewhere keep their pages. */
  lemma ShrunkFacts(blockOf: map<int, int>, b: int, n: int, z: int, m: int)
    requires Owns(blockOf, b, n) && z != b
    ensures Owns(blockOf, z, m) ==> Owns(Shrunk(blockOf, b, n), z, m)
  {
    var s := Shrunk(blockOf, b, n);
    if Owns(blockOf, z, m) {
      forall x {:trigger x in s} | z <= x < z + m ensures x in s && s[x] == z {
        assert x in blockOf;
      }
    }
  }

  /** Pages taken from the page allocator become a free zone. */
  lemma GrowZone(cnt: int, zones: map<int, Zone>, zoneFree: seq<int>, usage: map<int, Usage>, usage': map<int, Usage>,
                 blockOf: map<int, int>, large: map<int, int>, z: int)
    requires ZonePagesOk(cnt, zones, zoneFree, usage, blockOf) && LargeOk(zones, zoneFree, large, usage, blockOf)
             && Unused(blockOf, z, cnt)
    requires MarkedUsage(usage, usage', z, cnt)
    ensures z !in zones && z !in zoneFree && z !in large
    ensures ZonePagesOk(cnt, zones, [z] + zoneFree, usage', Grown(blockOf, z, cnt))
    ensures LargeOk(zones, [z] + zoneFree, large, usage', Grown(blockOf, z, cnt))
  {
    hide Grown, Owns;
    forall y | y in zones ensures y !in [z] + zoneFree && Owns(Grown(blockOf, z, cnt), y, cnt)
      && Leads(usage', y, cnt) {
      GrownFacts(blockOf, z, cnt, y, cnt);
      LeadsStill(usage, usage', blockOf, y, z, cnt);
    }
    forall y | y in zoneFree ensures y != z && Owns(Grown(blockOf, z, cnt), y, cnt) && Leads(usage', y, cnt) {
      GrownFacts(blockOf, z, cnt, y, cnt);
      LeadsStill(usage, usage', blockOf, y, z, cnt);
    }
    GrownFacts(blockOf, z, cnt, z, 0);
    ConsOnce(z, zoneFree);
    hide NoRepeats, Leads, Unused;
    forall b | b in large ensures b != z && Owns(Grown(blockOf, z, cnt), b, large[b]) && b in usage'
      && usage'[b] == usage[b] {
      GrownFacts(blockOf, z, cnt, b, large[b]);
      OwnsStart(blockOf, b, large[b], z, cnt);
    }
  }

  lemma OwnsStart(blockOf: map<int, int>, b: int, n: int, z: int, m: int)
    requires Owns(blockOf, b, n) && n > 0 && Unused(blockOf, z, m)
    ensures b in blockOf && blockOf[b] == b && !(z <= b < z + m)
  {
    assert b in blockOf;
  }

  lemma LeadsStill(usage: map<int, Usage>, usage': map<int, Usage>, blockOf: map<int, int>, y: int, z: int, cnt: int)
    requires Leads(usage, y, cnt) && Owns(blockOf, y, cnt) && Unused(blockOf, z, cnt)
    requires MarkedUsage(usage, usage', z, cnt)
    ensures Leads(usage', y, cnt)
  {
    forall x {:trigger x in usage'} | y <= x < y + cnt ensures x in usage' && usage'[x] == Usage(TypeSmall, x - y) {
      assert x in usage && usage[x] == Usage(TypeSmall, x - y);
      assert x in blockOf;
      assert !(z <= x < z + cnt);
      assert x in usage';
    }
  }

  /** The last of too many free zones goes back to the page allocator. */
  lemma ReleaseZone(cnt: int, zones: map<int, Zone>, zoneFree: seq<int>, usage: map<int, Usage>,
                    usage': map<int, Usage>, blockOf: map<int, int>, large: map<int, int>)
    requires ZonePagesOk(cnt, zones, zoneFree, usage, blockOf) && LargeOk(zones, zoneFree, large, usage, blockOf)
             && zoneFree != []
    requires SameUsage(usage, usage', zoneFree[0], cnt)
    ensures var z := zoneFree[0];
            && Owns(blockOf, z, cnt)
            && ZonePagesOk(cnt, zones, zoneFree[1..], usage', Shrunk(blockOf, z, cnt))
            && LargeOk(zones, zoneFree[1..], large, usage', Shrunk(blockOf, z, cnt))
  {
    hide Shrunk;
    var z := zoneFree[0];
    assert z in zoneFree;
    HeadOnce(zoneFree);
    hide NoRepeats;
    forall y | y in zones || y in zoneFree[1..] ensures Owns(Shrunk(blockOf, z, cnt), y, cnt) && Leads(usage', y, cnt) {
      ShrunkFacts(blockOf, z, cnt, y, cnt);
      LeadsOutside(usage, usage', blockOf, y, z, cnt);
    }
    hide Leads;
    forall b | b in large ensures Owns(Shrunk(blockOf, z, cnt), b, large[b]) && b in usage' && usage'[b] == usage[b] {
      ShrunkFacts(blockOf, z, cnt, b, large[b]);
      assert b in blockOf;
    }
  }

  lemma LeadsOutside(usage: map<int, Usage>, usage': map<int, Usage>, blockOf: map<int, int>, y: int, z: int, cnt: int)
    requires Leads(usage, y, cnt) && Owns(blockOf, y, cnt) && Owns(blockOf, z, cnt) && y != z
    requires SameUsage(usage, usage', z, cnt)
    ensures Leads(usage', y, cnt)
  {
    forall x {:trigger x in usage'} | y <= x < y + cnt ensures x in usage' && usage'[x] == Usage(TypeSmall, x - y) {
      assert x in usage && x in blockOf;
    }
  }

  /** A large block is handed out. */
  lemma GrowLarge(cnt: int, zones: map<int, Zone>, zoneFree: seq<int>, usage: map<int, Usage>, blockOf: map<int, int>,
                  large: map<int, int>, b: int, n: int)
    requires ZonePagesOk(cnt, zones, zoneFree, usage, blockOf) && LargeOk(zones, zoneFree, large, usage, blockOf)
             && Unused(blockOf, b, n) && n > 0
    ensures b !in large && b !in zones && b !in zoneFree
    ensures ZonePagesOk(cnt, zones, zoneFree, usage[b := Usage(TypeLarge, n)], Grown(blockOf, b, n))
    ensures LargeOk(zones, zoneFree, large[b := n], usage[b := Usage(TypeLarge, n)], Grown(blockOf, b, n))
  {
    hide Grown, Owns, NoRepeats;
    var usage' := usage[b := Usage(TypeLarge, n)];
    forall y | y in zones || y in zoneFree
      ensures y != b && Owns(Grown(blockOf, b, n), y, cnt) && Leads(usage', y, cnt)
    {
      GrownFacts(blockOf, b, n, y, cnt);
    }
    hide Leads, Unused;
    forall c | c in large ensures c != b && Owns(Grown(blockOf, b, n), c, large[c]) {
      GrownFacts(blockOf, b, n, c, large[c]);
    }
    GrownFacts(blockOf, b, n, b, 0);
  }

  /** A large block comes back. */
  lemma ShrinkLarge(cnt: int, zones: map<int, Zone>, zoneFree: seq<int>, usage: map<int, Usage>, blockOf: map<int, int>,
                    large: map<int, int>, b: int)
    requires ZonePagesOk(cnt, zones, zoneFree, usage, blockOf) && LargeOk(zones, zoneFree, large, usage, blockOf)
             && b in large
    ensures Owns(blockOf, b, large[b]) && large[b] > 0
    ensures ZonePagesOk(cnt, zones, zoneFree, usage[b := Usage(TypeLarge, 0)], Shrunk(blockOf, b, large[b]))
    ensures LargeOk(zones, zoneFree, large - {b}, usage[b := Usage(TypeLarge, 0)], Shrunk(blockOf, b, large[b]))
  {
    hide Shrunk, NoRepeats;
    var n := large[b];
    var usage' := usage[b := Usage(TypeLarge, 0)];
    forall y | y in zones || y in zoneFree ensures Owns(Shrunk(blockOf, b, n), y, cnt) && Leads(usage', y, cnt) {
      ShrunkFacts(blockOf, b, n, y, cnt);
      assert b in blockOf;
    }
    hide Leads;
    forall c | c in large && c != b ensures Owns(Shrunk(blockOf, b, n), c, large[c]) {
      ShrunkFacts(blockOf, b, n, c, large[c]);
    }
  }

  lemma GrownCount(blockOf: map<int, int>, b: int, n: int)
    requires Unused(blockOf, b, n) && n >= 0
    ensures |Grown(blockOf, b, n)| == |blockOf| + n
  {
    var g := Grown(blockOf, b, n);
    assert g.Keys == blockOf.Keys + Span(b, n);
    assert blockOf.Keys !! Span(b, n);
    assert |g| == |g.Keys|;
  }

  lemma ShrunkCount(blockOf: map<int, int>, b: int, n: int)
    requires Owns(blockOf, b, n) && n >= 0
    ensures |Shrunk(blockOf, b, n)| == |blockOf| - n
  {
    var g := Shrunk(blockOf, b, n);
    assert g.Keys == blockOf.Keys - Span(b, n);
    forall x | x in Span(b, n) ensures x in blockOf.Keys {
      assert x in blockOf;
    }
    assert blockOf.Keys == g.Keys + Span(b, n);
    assert |g| == |g.Keys|;
  }

  lemma DropOne(m: map<int, int>, x: int)
    requires x in m
    ensures |m - {x}| == |m| - 1
  {
    assert m == (m - {x})[x := m[x]];
  }

  /** The sum does not depend on the order in which the blocks are taken. */
  lemma {:induction false} LargeWithout(large: map<int, int>, b: int)
    requires b in large
    ensures LargePages(large) == large[b] + LargePages(large - {b})
    decreases |large|
  {
    var c :| c in large && LargePages(large) == large[c] + LargePages(large - {c});
    if c != b {
      DropOne(large, c);
      DropOne(large, b);
      LargeWithout(large - {c}, b);
      LargeWithout(large - {b}, c);
      assert large - {c} - {b} == large - {b} - {c};
    }
  }

  lemma LargeWith(large: map<int, int>, b: int, n: int)
    requires b !in large
    ensures LargePages(large[b := n]) == LargePages(large) + n
  {
    LargeWithout(large[b := n], b);
    assert large[b := n] - {b} == large;
  }

  /** Fresh pages are not those of the memusage array. */
  lemma FreshBlock(k: Books, blockOf: map<int, int>, b: int, n: int)
    requires PagesOk(k, blockOf) && Unused(blockOf, b, n) && n > 0
    ensures b != k.table
  {
    assert k.table in blockOf;
  }

  lemma Grow(a: int, b: int)
    ensures a * (b + 1) == a * b + a && a * (b - 1) == a * b - a
  {
  }

  lemma PagesGrowSmall(k: Books, blockOf: map<int, int>, z: int)
    requires PagesOk(k, blockOf) && k.cnt > 0 && Unused(blockOf, z, k.cnt) && z !in k.small && z !in k.large
    ensures PagesOk(k.(small := k.small + {z}), Grown(blockOf, z, k.cnt))
  {
    GrownCount(blockOf, z, k.cnt);
    GrownFacts(blockOf, z, k.cnt, k.table, k.tableLen);
    FreshBlock(k, blockOf, z, k.cnt);
    Grow(k.cnt, |k.small|);
    hide Owns, LargePages, Unused, Grown;
    var k', g := k.(small := k.small + {z}), Grown(blockOf, z, k.cnt);
    forall x {:trigger x in g} | x in g ensures Inside(k', g[x], x) {
      GrownAt(blockOf, z, k.cnt, x);
    }
  }

  lemma GrownAt(blockOf: map<int, int>, b: int, n: int, x: int)
    requires x in Grown(blockOf, b, n)
    ensures Grown(blockOf, b, n)[x] == (if b <= x < b + n then b else if x in blockOf then blockOf[x] else 0)
    ensures x in blockOf || b <= x < b + n
  {
  }

  lemma ShrunkAt(blockOf: map<int, int>, b: int, n: int, x: int)
    requires x in Shrunk(blockOf, b, n)
    ensures x in blockOf && Shrunk(blockOf, b, n)[x] == blockOf[x] && !(b <= x < b + n)
  {
  }

  lemma PagesShrinkSmall(k: Books, blockOf: map<int, int>, z: int)
    requires PagesOk(k, blockOf) && k.cnt > 0 && Owns(blockOf, z, k.cnt) && z in k.small && z !in k.large
    ensures PagesOk(k.(small := k.small - {z}), Shrunk(blockOf, z, k.cnt))
  {
    ShrunkCount(blockOf, z, k.cnt);
    ShrunkFacts(blockOf, z, k.cnt, k.table, k.tableLen);
    Grow(k.cnt, |k.small|);
    hide Owns, LargePages, Shrunk;
    var k', g := k.(small := k.small - {z}), Shrunk(blockOf, z, k.cnt);
    forall x {:trigger x in g} | x in g ensures Inside(k', g[x], x) {
      ShrunkAt(blockOf, z, k.cnt, x);
    }
  }

  lemma PagesGrowLarge(k: Books, blockOf: map<int, int>, b: int, n: int)
    requires PagesOk(k, blockOf) && n > 0 && Unused(blockOf, b, n) && b !in k.small && b !in k.large
    ensures PagesOk(k.(large := k.large[b := n]), Grown(blockOf, b, n))
  {
    GrownCount(blockOf, b, n);
    GrownFacts(blockOf, b, n, k.table, k.tableLen);
    FreshBlock(k, blockOf, b, n);
    LargeWith(k.large, b, n);
    hide Owns, LargePages, Unused, Grown;
    var k', g := k.(large := k.large[b := n]), Grown(blockOf, b, n);
    forall x {:trigger x in g} | x in g ensures Inside(k', g[x], x) {
      GrownAt(blockOf, b, n, x);
    }
  }

  lemma PagesShrinkLarge(k: Books, blockOf: map<int, int>, b: int)
    requires PagesOk(k, blockOf) && b in k.large && k.large[b] > 0 && Owns(blockOf, b, k.large[b]) && b !in k.small
    ensures PagesOk(k.(large := k.large - {b}), Shrunk(blockOf, b, k.large[b]))
  {
    ShrunkCount(blockOf, b, k.large[b]);
    ShrunkFacts(blockOf, b, k.large[b], k.table, k.tableLen);
    LargeWithout(k.large, b);
    hide Owns, LargePages, Shrunk;
    var k', g := k.(large := k.large - {b}), Shrunk(blockOf, b, k.large[b]);
    forall x {:trigger x in g} | x in g ensures Inside(k', g[x], x) {
      ShrunkAt(blockOf, b, k.large[b], x);
    }
  }

  /** Page allocation, seen in blockOf. */
  lemma CoversAlloc(runs: seq<Run>, total: int, blockOf: map<int, int>, n: int)
    requires Covers(runs, total, blockOf) && RunsOk(0, runs, total) && n > 0
    ensures var r := AllocRuns(runs, n);
            if r.1 == NULL then Covers(r.0, total, blockOf)
            else r.1 >= 0 && Unused(blockOf, r.1, n) && Covers(r.0, total, Grown(blockOf, r.1, n))
  {
    hide AllocRuns, InRuns, RunsOk;
    AllocTakes(0, runs, total, n);
    var (runs', b) := AllocRuns(runs, n);
    if b != NULL {
      forall x {:trigger x in blockOf} | b <= x < b + n ensures x !in blockOf {
        assert InRuns(runs, x);
      }
      GrownCount(blockOf, b, n);
    }
  }

  /** Page release, seen in blockOf. */
  lemma CoversFree(runs: seq<Run>, total: int, blockOf: map<int, int>, b: int, n: int)
    requires Covers(runs, total, blockOf) && RunsOk(0, runs, total) && n > 0 && Owns(blockOf, b, n)
    ensures 0 <= b && b + n <= total && forall x {:trigger InRuns(runs, x)} :: b <= x < b + n ==> !InRuns(runs, x)
    ensures Covers(FreeRuns(runs, b, n), total, Shrunk(blockOf, b, n))
  {
    hide FreeRuns, InRuns, RunsOk;
    assert b in blockOf && b + n - 1 in blockOf;
    forall x {:trigger InRuns(runs, x)} | b <= x < b + n ensures !InRuns(runs, x) {
      assert x in blockOf;
    }
    FreeAdds(0, runs, total, b, n);
    ShrunkCount(blockOf, b, n);
  }

  const RELEASE_THRESHOLD: int := 2    // ZONE_RELEASE_THRESH

  lemma EmptyList(zi: int)
    ensures ListOk(map[], [], zi)
  {
  }

  lemma EmptyLists(zoneArray: map<int, seq<int>>)
    requires forall zi {:trigger zi in zoneArray} :: 0 <= zi < NZONES ==> zi in zoneArray && zoneArray[zi] == []
    ensures ListsOk(map[], zoneArray)
  {
    forall zi | 0 <= zi < NZONES ensures zi in zoneArray && ListOk(map[], zoneArray[zi], zi) {
      EmptyList(zi);
    }
  }

  lemma TableOnly(cnt: int, table: int, tableLen: int)
    requires tableLen > 0
    ensures PagesOk(Books(cnt, {}, map[], table, tableLen), Grown(map[], table, tableLen))
  {
    var none: map<int, int> := map[];
    GrownCount(none, table, tableLen);
    GrownFacts(none, table, tableLen, table, 0);
    assert LargePages(map[]) == 0;
    hide Grown, Owns, LargePages;
    var k, g := Books(cnt, {}, map[], table, tableLen), Grown(none, table, tableLen);
    forall x {:trigger x in g} | x in g ensures Inside(k, g[x], x) {
      GrownAt(none, table, tableLen, x);
    }
  }

  /** A heap without zones and large blocks: all that is in use is the memusage array. */
  lemma NothingYet(zoneSize: int, zoneArray: map<int, seq<int>>, blockOf: map<int, int>, table: int, tableLen: int)
    requires ZoneSizeOk(zoneSize) && blockOf == Grown(map[], table, tableLen) && tableLen > 0
    requires forall zi {:trigger zi in zoneArray} :: 0 <= zi < NZONES ==> zi in zoneArray && zoneArray[zi] == []
    ensures SlabOk(Slabs(zoneSize, map[], map[], zoneArray, [], map[], map[], map[], blockOf, table, tableLen))
  {
    EmptyLists(zoneArray);
    TableOnly(zoneSize / PAGE, table, tableLen);
    assert Small(map[], []) == {};
    hide ListsOk, PagesOk, Grown;
  }

  /** Conservation: free pages, pages of zones in use and of free zones, pages of live large blocks and the pages of the
      memusage array make up the heap. */
  lemma PagesConserved(s: Slabs, runs: seq<Run>, total: int)
    requires SlabOk(s) && Covers(runs, total, s.blockOf)
    ensures Total(runs) + s.zoneSize / PAGE * (|s.zones| + |s.zoneFree|) + LargePages(s.large) + s.tableLen == total
  {
    hide ZonesOk, ListsOk, LargeOk, OwnersOk, InRuns, ZonePagesOk, Small, LargePages, Owns, NoRepeats, Total, Inside;
    ZonesNotFree(s.zoneSize / PAGE, s.zones, s.zoneFree, s.usage, s.blockOf);
    SmallCount(s.zones, s.zoneFree);
  }

  lemma ZonesNotFree(cnt: int, zones: map<int, Zone>, zoneFree: seq<int>, usage: map<int, Usage>,
                     blockOf: map<int, int>)
    requires ZonePagesOk(cnt, zones, zoneFree, usage, blockOf)
    ensures NoRepeats(zoneFree) && forall z {:trigger z in zones} :: z in zones ==> z !in zoneFree
  {
    hide NoRepeats, Owns, Leads;
  }

  lemma SmallCount(zones: map<int, Zone>, zoneFree: seq<int>)
    requires NoRepeats(zoneFree) && forall z {:trigger z in zones} :: z in zones ==> z !in zoneFree
    ensures |Small(zones, zoneFree)| == |zones| + |zoneFree|
  {
    SetOf(zoneFree);
    var f := set z | z in zoneFree;
    assert zones.Keys !! f;
    assert |zones.Keys| == |zones|;
  }

  /** No page leaks: a page that is not free is a page of a zone, of a live large block, or of the memusage array. */
  lemma PageAccounted(s: Slabs, runs: seq<Run>, total: int, x: int)
    requires SlabOk(s) && Covers(runs, total, s.blockOf) && 0 <= x < total && !InRuns(runs, x)
    ensures exists b {:trigger b in s.zones} {:trigger b in s.zoneFree} {:trigger b in s.large} ::
              || ((b in s.zones || b in s.zoneFree) && b <= x < b + s.zoneSize / PAGE)
              || (b in s.large && b <= x < b + s.large[b])
              || (b == s.table && b <= x < b + s.tableLen)
  {
    hide ZonesOk, ListsOk, LargeOk, OwnersOk, ZonePagesOk, InRuns;
    assert x in s.blockOf;
    var b := s.blockOf[x];
    assert b in s.zones || b in s.zoneFree || b in s.large || b == s.table;
  }

  // rt_system_heap_init.

  /** RT_ALIGN and RT_ALIGN_DOWN to pages. */
  function PageUp(a: u32): u32 { (a + PAGE - 1) % WORD / PAGE * PAGE }

  function PageDown(a: u32): u32 { a / PAGE * PAGE }

  /** The pages between two end addresses; rt_system_heap_init gives up when there is none. */
  function HeapPages(begin: u32, finish: u32): int {
    if PageUp(begin) < PageDown(finish) then (PageDown(finish) - PageUp(begin)) / PAGE else 0
  }

  /** The heap is made of all the whole pages there are between its end addresses, unless rounding up the begin address
      wraps: then it starts at 0. */
  lemma HeapPagesLargest(begin: u32, finish: u32, p: int, n: int)
    ensures 0 <= HeapPages(begin, finish) < WORD / PAGE
    ensures begin <= WORD - PAGE ==>
              && (HeapPages(begin, finish) > 0 ==>
                    begin <= PageUp(begin) && PageUp(begin) + HeapPages(begin, finish) * PAGE <= finish)
              && (begin <= p * PAGE && n >= 0 && (p + n) * PAGE <= finish ==> n <= HeapPages(begin, finish))
    ensures begin > WORD - PAGE ==> PageUp(begin) == 0 && HeapPages(begin, finish) == finish / PAGE
  {
  }

  lemma HeapSome(begin: u32, finish: u32)
    requires PageUp(begin) < PageDown(finish)
    ensures HeapPages(begin, finish) > 0
  {
  }

  /** The loop that picks the zone size. */
  method ZoneSizeFor(npages: int) returns (size: int)
    ensures ZoneSizeOk(size)
    ensures size == if npages * 4 <= 64 * 1024 then MIN_ZONE_SIZE
                    else if npages * 4 <= 128 * 1024 then 2 * MIN_ZONE_SIZE
                    else MAX_ZONE_SIZE
  {
    var limsize := npages * PAGE;
    size := MIN_ZONE_SIZE;
    while size < MAX_ZONE_SIZE && size * 2 < limsize / 1024
      invariant ZoneSizeOk(size) && (size > MIN_ZONE_SIZE ==> size < npages * 4)
      decreases MAX_ZONE_SIZE - size
    {
      size := size * 2;
    }
  }

  /** The chunk a zone gives next: the lowest one never used, else the head of its free list. */
  method NextChunk(z: int, c: Zone, ghost idx: seq<int>) returns (c': Zone, chunk: int)
    requires c.chunkSize > 0
    requires c.uindex + 1 == c.nmax ==> idx != [] && c.freeChunks != []
                                        && c.freeChunks[0] == Address(z, c.chunkSize, idx[0])
    requires c.base + TakenIndex(c, idx) * c.chunkSize == Address(z, c.chunkSize, TakenIndex(c, idx))
    ensures c' == TakenZone(c.(nfree := c.nfree + 1)) && chunk == Address(z, c.chunkSize, TakenIndex(c, idx))
  {
    hide Address;
    c' := c;
    if c.uindex + 1 != c.nmax {
      c' := c'.(uindex := c'.uindex + 1);
      chunk := c'.base + c'.uindex * c'.chunkSize;
    } else {
      chunk := c'.freeChunks[0];
      c' := c'.(freeChunks := c'.freeChunks[1..]);
    }
  }

  class SlabAllocator {
    const pages: PageAllocator
    const heapStart: u32                // heap_start; all addresses here are relative to it
    const zoneSize: int                 // zone_size
    const zoneLimit: int                // zone_limit
    const zonePageCnt: int              // zone_page_cnt
    ghost const table: int              // the pages of the memusage array
    ghost const tableLen: int
    var zones: map<int, Zone>           // zone headers, of the zones in use
    var zoneArray: map<int, seq<int>>   // zone_array, linked by z_next
    var zoneFree: seq<int>              // zone_free, linked by z_next
    var memusage: map<int, Usage>
    ghost var large: map<int, int>      // live large blocks and their lengths in pages
    ghost var owner: map<int, Place>    // live chunks
    ghost var freeIndex: map<int, seq<int>>
    ghost var blockOf: map<int, int>    // pages in use, and the block they belong to

    ghost function View(): Slabs
      reads this
    {
      Slabs(zoneSize, zones, freeIndex, zoneArray, zoneFree, memusage, large, owner, blockOf, table, tableLen)
    }

    /** The state is good, with up to `most` free zones. */
    ghost predicate Shape(most: int)
      reads this
    {
      && zonePageCnt == zoneSize / PAGE && zoneLimit == ZoneLimit(zoneSize) && |zoneFree| <= most
      && SlabOk(View())
    }

    ghost predicate Valid()
      reads this, pages
    {
      Shape(RELEASE_THRESHOLD) && pages.Valid() && Covers(pages.runs, pages.total, blockOf)
    }

    /** Conservation: no page is ever lost. */
    lemma Conserved()
      requires Valid()
      ensures Total(pages.runs) + zonePageCnt * (|zones| + |zoneFree|) + LargePages(large) + tableLen == pages.total
    {
      hide SlabOk, Covers, Total, LargePages, RunsOk;
      PagesConserved(View(), pages.runs, pages.total);
    }

    /** rt_system_heap_init between two addresses that leave at least one page. */
    constructor (begin: u32, finish: u32)
      requires PageUp(begin) < PageDown(finish)
      ensures Valid() && fresh(pages) && heapStart == PageUp(begin) && pages.total == HeapPages(begin, finish)
      ensures zones == map[] && zoneFree == [] && large == map[] && owner == map[]
      ensures table == 0 && tableLen == (pages.total * 4 + PAGE - 1) / PAGE
      ensures zoneSize == if pages.total * 4 <= 64 * 1024 then MIN_ZONE_SIZE
                          else if pages.total * 4 <= 128 * 1024 then 2 * MIN_ZONE_SIZE
                          else MAX_ZONE_SIZE
    {
      hide SlabOk, Grown, Covers;
      HeapPagesLargest(begin, finish, 0, 0);
      heapStart := PageUp(begin);
      var npages := (PageDown(finish) - PageUp(begin)) / PAGE;
      assert npages == HeapPages(begin, finish) && 0 < npages by {
        HeapSome(begin, finish);
      }
      hide PageUp, PageDown, HeapPages;
      var p := new PageAllocator(npages);
      var size := ZoneSizeFor(npages);
      var n := (npages * 4 + PAGE - 1) / PAGE;
      AllFree(npages);
      CoversAlloc(p.runs, npages, map[], n);
      var b := p.Alloc(n);
      pages, zoneSize, zonePageCnt := p, size, size / PAGE;
      zoneLimit := if size / 4 > ZONE_LIMIT then ZONE_LIMIT else size / 4;
      table, tableLen := b, n;
      zones, zoneArray, zoneFree, memusage := map[], map zi | 0 <= zi < NZONES :: NoZones(zi), [], map[];
      large, owner, freeIndex, blockOf := map[], map[], map[], Grown(map[], b, n);
      new;
      NothingYet(zoneSize, zoneArray, blockOf, table, tableLen);
    }

    /** Takes a chunk from the first zone of class zi. */
    method TakeChunk(zi: int) returns (chunk: int, ghost p: Place)
      requires Shape(RELEASE_THRESHOLD) && 0 <= zi < NZONES && zi in zoneArray && zoneArray[zi] != []
      modifies this`zones, this`zoneArray, this`owner, this`freeIndex
      ensures Shape(RELEASE_THRESHOLD) && chunk !in old(owner) && owner == old(owner)[chunk := p]
      ensures p.zone == old(zoneArray[zi][0]) && p.zone in zones && zones[p.zone].chunkSize == ChunkOf(zi)
      ensures zones.Keys == old(zones.Keys)
    {
      hide SlabOk, ChunkOf, ZoneOffset, ZoneChunks, ZoneLimit, Address, ChunkAddress;
      TakeKeeps(View(), zi);
      ghost var s := Taken(View(), zi);
      var z := zoneArray[zi][0];
      var c := zones[z];
      ghost var i, idx := TakenIndex(c, freeIndex[z]), TakenIdx(c, freeIndex[z]);
      c := c.(nfree := c.nfree - 1);
      if c.nfree == 0 {
        zoneArray := zoneArray[zi := zoneArray[zi][1..]];
      } else {
        assert zoneArray[zi := zoneArray[zi]] == zoneArray;
      }
      c, chunk := NextChunk(z, c, freeIndex[z]);
      hide TakenZone, TakenIndex, TakenIdx;
      zones := zones[z := c];
      freeIndex := freeIndex[z := idx];
      p := Place(z, i);
      owner := owner[chunk := p];
      assert View() == s;
    }

    /** Makes the first free zone a zone of class zi and takes its first chunk. */
    method OpenZone(zi: int) returns (chunk: int, ghost p: Place)
      requires Shape(RELEASE_THRESHOLD + 1) && zoneFree != []
      requires 0 <= zi < NZONES && zi in zoneArray && 0 < ChunkOf(zi) <= zoneLimit
      modifies this`zones, this`zoneArray, this`zoneFree, this`owner, this`freeIndex
      ensures Shape(RELEASE_THRESHOLD) && chunk !in old(owner) && owner == old(owner)[chunk := p]
      ensures p.zone == old(zoneFree[0]) && p.zone in zones && zones[p.zone].chunkSize == ChunkOf(zi)
      ensures zoneFree == old(zoneFree[1..]) && zones.Keys == old(zones.Keys) + {p.zone}
    {
      hide SlabOk, ChunkOf, ZoneOffset, ZoneChunks, ZoneLimit, Address, PowerOfTwo;
      OpenKeeps(View(), zi);
      ghost var s := Opened(View(), zi);
      var z := zoneFree[0];
      zoneFree := zoneFree[1..];
      var size := ChunkOf(zi);
      var off := ZoneOffset(size);
      var n := ZoneChunks(zoneSize, size);
      var c := Zone(n - 1, n, z * PAGE + off, 0, size, zi, []);
      chunk := c.base;
      zones := zones[z := c];
      zoneArray := zoneArray[zi := [z] + zoneArray[zi]];
      freeIndex := freeIndex[z := []];
      p := Place(z, 0);
      owner := owner[chunk := p];
      assert View() == s;
    }

    /** Pages for a new zone, marked in memusage. */
    method GetZone() returns (ok: bool)
      requires Valid() && zoneFree == []
      modifies this`zoneFree, this`memusage, this`blockOf, pages
      ensures Valid() && ok == old(Fits(pages.runs, zonePageCnt)) && ok == (zoneFree != [])
      ensures !ok ==> memusage == old(memusage) && blockOf == old(blockOf) && pages.runs == old(pages.runs)
      ensures ok ==> |zoneFree| == 1 && (pages.runs, zoneFree[0]) == AllocRuns(old(pages.runs), zonePageCnt)
    {
      hide SlabOk, InRuns, Fits, Grown, Unused, ZoneLimit, Covers, RunsOk, Linked, MarkedUsage, AllocRuns;
      CountPositive(View());
      var z := TakePages(zonePageCnt);
      if z == NULL {
        return false;
      }
      ghost var s := View();
      MarkZone(z);
      AddFreeZone(s, memusage, z);
      zoneFree := [z] + zoneFree;
      blockOf := Grown(blockOf, z, zonePageCnt);
      assert View() == s.(zoneFree := zoneFree, usage := memusage, blockOf := blockOf);
      ok := true;
    }

    /** The memusage loop of rt_malloc for a new zone. */
    method MarkZone(z: int)
      requires zonePageCnt > 0
      modifies this`memusage
      ensures MarkedUsage(old(memusage), memusage, z, zonePageCnt)
    {
      for off := 0 to zonePageCnt
        invariant MarkedUsage(old(memusage), memusage, z, off)
      {
        memusage := memusage[z + off := Usage(TypeSmall, off)];
      }
    }

    /** The memusage loop of rt_free for a zone that is released. */
    method ClearZone(z: int)
      requires zonePageCnt > 0
      modifies this`memusage
      ensures SameUsage(old(memusage), memusage, z, zonePageCnt)
      ensures forall x {:trigger x in memusage} :: z <= x < z + zonePageCnt ==>
                x in memusage && memusage[x] == Usage(TypeFree, 0)
    {
      for i := 0 to zonePageCnt
        invariant SameUsage(old(memusage), memusage, z, zonePageCnt)
        invariant forall x {:trigger x in memusage} :: z <= x < z + i ==>
                    x in memusage && memusage[x] == Usage(TypeFree, 0)
      {
        memusage := memusage[z + i := Usage(TypeFree, 0)];
      }
    }

    /** rt_page_alloc, seen in blockOf. */
    method TakePages(n: int) returns (b: int)
      requires pages.Valid() && Covers(pages.runs, pages.total, blockOf) && n > 0
      modifies pages
      ensures pages.Valid() && (b == NULL <==> !old(Fits(pages.runs, n)))
      ensures b == NULL ==> pages.runs == old(pages.runs)
      ensures b != NULL ==> (pages.runs, b) == AllocRuns(old(pages.runs), n)
      ensures b != NULL ==> b >= 0 && Unused(blockOf, b, n) && Covers(pages.runs, pages.total, Grown(blockOf, b, n))
    {
      hide AllocRuns, InRuns, Fits, Grown, Unused, Covers, RunsOk, Linked;
      CoversAlloc(pages.runs, pages.total, blockOf, n);
      AllocExact(0, pages.runs, pages.total, n);
      FailKeeps(pages.runs, pages.total, n);
      b := pages.Alloc(n);
    }

    /** rt_malloc; NULL for a null pointer. */
    method Malloc(size: u32) returns (chunk: int, ghost p: Place)
      requires Valid()
      modifies this, pages
      ensures Valid()
      ensures chunk == NULL <==> old(Refuses(size))
      ensures chunk == NULL ==> owner == old(owner) && large == old(large) && pages.runs == old(pages.runs)
      ensures chunk != NULL && size < zoneLimit ==>
                p.zone in zones && size <= zones[p.zone].chunkSize && SmallWaste(size, zones[p.zone].chunkSize)
      ensures chunk != NULL && size < zoneLimit ==>
                && chunk !in old(owner) && owner == old(owner)[chunk := p] && large == old(large)
                && p.zone in zones && zones[p.zone].chunkSize == ZoneIndex(size).1 >= size
                && Supplied(old(View()), old(pages.runs), zonePageCnt, ZoneIndex(size).0, p.zone,
                            zones.Keys, zoneFree, pages.runs)
      ensures chunk != NULL && size >= zoneLimit ==>
                && chunk % PAGE == 0 && owner == old(owner) && LargeAdded(old(large), large, chunk / PAGE, size)
                && (pages.runs, chunk / PAGE) == AllocRuns(old(pages.runs), large[chunk / PAGE])
                && zones == old(zones) && zoneFree == old(zoneFree)
    {
      hide SlabOk, InRuns, Fits, RunsOk, Linked, Covers, ZoneIndex, ChunkOf, AllocRuns, PagesFor, NoRunHolds, JustHolds,
           SmallWaste;
      p := Place(0, 0);
      if size == 0 {
        return NULL, p;
      }
      if size >= zoneLimit {
        chunk := AllocLarge(size);
        return;
      }
      var zi, chunkSize := ZoneIndex(size).0, ZoneIndex(size).1;
      SizeKnown(View(), size);
      ZoneRun(pages.runs);
      if zoneArray[zi] != [] {
        chunk, p := TakeChunk(zi);
        TakenNotNull(chunk, p);
        return;
      }
      if zoneFree == [] {
        var ok := GetZone();
        if !ok {
          return NULL, p;
        }
      }
      chunk, p := OpenZone(zi);
      TakenNotNull(chunk, p);
    }

    /** When rt_malloc returns a null pointer. */
    ghost predicate Refuses(size: u32)
      reads this`zoneArray, this`zoneFree, pages
    {
      if size == 0 then true
      else if size >= zoneLimit then size > WORD - PAGE || NoRunHolds(pages.runs, size)
      else
        && ZoneIndex(size).0 in zoneArray && zoneArray[ZoneIndex(size).0] == []
        && zoneFree == [] && NoRunHolds(pages.runs, zonePageCnt * PAGE)
    }

    lemma ZoneRun(runs: seq<Run>)
      requires Valid()
      ensures NoRunHolds(runs, zonePageCnt * PAGE) <==> !Fits(runs, zonePageCnt)
    {
      FitsHolds(runs, zonePageCnt, zonePageCnt * PAGE);
    }

    lemma TakenNotNull(chunk: int, p: Place)
      requires Valid() && chunk in owner && owner[chunk] == p
      ensures chunk != NULL
    {
      AddressNotNull(View(), pages.runs, pages.total, chunk);
    }

    /** The direct path of rt_malloc. */
    method AllocLarge(size: u32) returns (chunk: int)
      requires Valid() && size >= zoneLimit
      modifies this`memusage, this`large, this`blockOf, pages
      ensures Valid()
      ensures chunk == NULL <==> size > WORD - PAGE || old(NoRunHolds(pages.runs, size))
      ensures chunk == NULL ==> large == old(large) && pages.runs == old(pages.runs)
      ensures chunk != NULL ==>
                && chunk % PAGE == 0 && LargeAdded(old(large), large, chunk / PAGE, size)
                && (pages.runs, chunk / PAGE) == AllocRuns(old(pages.runs), large[chunk / PAGE])
    {
      hide SlabOk, AllocRuns, InRuns, Fits, Grown, Unused, ZoneLimit, Covers, RunsOk, Linked, PagesFor, NoRunHolds;
      var n := PagesFor(size);
      LimitPositive(View());
      PagesExact(size);
      if n == 0 {
        var none := pages.Alloc(0);
        return none;
      }
      FitsHolds(pages.runs, n, size);
      var b := TakePages(n);
      if b == NULL {
        return NULL;
      }
      ghost var s := View();
      AddLarge(s, b, n);
      memusage := memusage[b := Usage(TypeLarge, n)];
      large := large[b := n];
      blockOf := Grown(blockOf, b, n);
      assert View() == s.(usage := memusage, large := large, blockOf := blockOf);
      chunk := b * PAGE;
      PageAddress(b);
    }

    /** rt_free of a live chunk or a live large block. */
    method Free(ptr: int)
      requires Valid() && ptr >= 0 && (ptr in owner || (ptr % PAGE == 0 && ptr / PAGE in large))
      modifies this, pages
      ensures Valid()
      ensures old(ptr in owner) ==> owner == old(owner) - {ptr} && large == old(large)
      ensures old(ptr in owner) ==>
                && old(owner[ptr].zone in zones)
                && Withdrawn(old(View()), old(pages.runs), zonePageCnt, old(owner[ptr].zone), zones.Keys, zoneFree,
                             pages.runs)
      ensures old(ptr !in owner) ==>
                && owner == old(owner) && large == old(large) - {ptr / PAGE}
                && pages.runs == FreeRuns(old(pages.runs), ptr / PAGE, old(large[ptr / PAGE]))
                && zones == old(zones) && zoneFree == old(zoneFree)
    {
      hide SlabOk, InRuns, RunsOk, Linked, Covers, Address, FreeRuns, ZoneLimit;
      KindKnown(View(), ptr);
      var kup := memusage[ptr / PAGE];
      if kup.kind == TypeLarge {
        FreeLarge(ptr / PAGE);
        return;
      }
      var z := ptr / PAGE - kup.size;
      ReturnChunk(z, ptr);
      var c := zones[z];
      if c.nfree == c.nmax && |zoneArray[c.zoneIndex]| > 1 {
        Retire(z);
        if |zoneFree| > RELEASE_THRESHOLD {
          Release();
        }
      }
    }

    /** The pages of a large block go back to the page allocator. */
    method FreeLarge(b: int)
      requires Valid() && b in large && b in memusage && memusage[b].size == large[b]
      modifies this`memusage, this`large, this`blockOf, pages
      ensures Valid() && large == old(large) - {b} && pages.runs == FreeRuns(old(pages.runs), b, old(large[b]))
    {
      hide SlabOk, InRuns, RunsOk, Linked, Covers, FreeRuns, Owns, Shrunk, ZoneLimit;
      ghost var s := View();
      DropLarge(s, b);
      var n := memusage[b].size;
      CoversFree(pages.runs, pages.total, blockOf, b, n);
      memusage := memusage[b := Usage(TypeLarge, 0)];
      large := large - {b};
      blockOf := Shrunk(blockOf, b, n);
      pages.Free(b, n);
      assert View() == s.(usage := memusage, large := large, blockOf := blockOf);
    }

    /** The chunk goes on the free list of its zone. */
    method ReturnChunk(z: int, ptr: int)
      requires Shape(RELEASE_THRESHOLD) && ptr in owner && owner[ptr].zone == z && z in zones
      modifies this`zones, this`zoneArray, this`owner, this`freeIndex
      ensures Shape(RELEASE_THRESHOLD) && owner == old(owner) - {ptr} && zones.Keys == old(zones.Keys)
      ensures old(zones[z].zoneIndex in zoneArray) && zones[z].zoneIndex in zoneArray
      ensures zones[z].nfree == zones[z].nmax && |zoneArray[zones[z].zoneIndex]| > 1 <==>
              old(zones[z].nfree + 1 == zones[z].nmax && |zoneArray[zones[z].zoneIndex]| > 1)
    {
      hide SlabOk, Address, ZoneLimit;
      ReturnKeeps(View(), ptr);
      ghost var s := Returned(View(), ptr);
      var c := zones[z];
      ghost var i := owner[ptr].index;
      if c.nfree == 0 {
        zoneArray := zoneArray[c.zoneIndex := [z] + zoneArray[c.zoneIndex]];
      } else {
        assert zoneArray[c.zoneIndex := zoneArray[c.zoneIndex]] == zoneArray;
      }
      zones := zones[z := c.(freeChunks := [ptr] + c.freeChunks, nfree := c.nfree + 1)];
      freeIndex := freeIndex[z := [i] + freeIndex[z]];
      owner := owner - {ptr};
      assert View() == s;
    }

    /** A zone without live chunks leaves its list. */
    method Retire(z: int)
      requires Shape(RELEASE_THRESHOLD) && z in zones && zones[z].nfree == zones[z].nmax
      modifies this`zones, this`zoneArray, this`zoneFree, this`freeIndex
      ensures Shape(RELEASE_THRESHOLD + 1) && zones == old(zones) - {z} && zoneFree == [z] + old(zoneFree)
    {
      hide SlabOk, ZoneLimit;
      RetireKeeps(View(), z);
      ghost var s := Retired(View(), z);
      var zi := zones[z].zoneIndex;
      zoneArray := zoneArray[zi := Minus(zoneArray[zi], z)];
      zones := zones - {z};
      freeIndex := freeIndex - {z};
      zoneFree := [z] + zoneFree;
      assert View() == s;
    }

    /** One free zone too many goes back to the page allocator. */
    method Release()
      requires Shape(RELEASE_THRESHOLD + 1) && |zoneFree| > RELEASE_THRESHOLD
      requires pages.Valid() && Covers(pages.runs, pages.total, blockOf)
      modifies this`zoneFree, this`memusage, this`blockOf, pages
      ensures Valid() && zoneFree == old(zoneFree[1..])
      ensures pages.runs == FreeRuns(old(pages.runs), old(zoneFree[0]), zonePageCnt)
    {
      hide SlabOk, InRuns, RunsOk, Linked, Covers, FreeRuns, Owns, Shrunk, ZoneLimit, SameUsage;
      CountPositive(View());
      var z := zoneFree[0];
      ghost var s := View();
      ClearZone(z);
      DropFreeZone(s, memusage);
      CoversFree(pages.runs, pages.total, blockOf, z, zonePageCnt);
      zoneFree := zoneFree[1..];
      blockOf := Shrunk(blockOf, z, zonePageCnt);
      pages.Free(z, zonePageCnt);
      assert View() == s.(zoneFree := zoneFree, usage := memusage, blockOf := blockOf);
    }
  }

  /** Where the zone of a chunk that rt_malloc hands out comes from: a zone of the class with a free chunk, else the
      free zones, else the page allocator. */
  ghost predicate Supplied(s: Slabs, runs: seq<Run>, cnt: int, zi: int, z: int,
                           zones: set<int>, zoneFree: seq<int>, runs': seq<Run>) {
    && zi in s.zoneArray
    && if s.zoneArray[zi] != [] then
         z == s.zoneArray[zi][0] && zones == s.zones.Keys && zoneFree == s.zoneFree && runs' == runs
       else if s.zoneFree != [] then
         z == s.zoneFree[0] && zones == s.zones.Keys + {z} && zoneFree == s.zoneFree[1..] && runs' == runs
       else
         (runs', z) == AllocRuns(runs, cnt) && zones == s.zones.Keys + {z} && zoneFree == []
  }

  /** What becomes of the zone z of a chunk that comes back: it stays, unless that was its last live chunk and its class
      has another zone with a free chunk; then it joins the free zones, or the free pages if there are too many of
      those. */
  ghost predicate Withdrawn(s: Slabs, runs: seq<Run>, cnt: int, z: int,
                            zones: set<int>, zoneFree: seq<int>, runs': seq<Run>) {
    && z in s.zones && s.zones[z].zoneIndex in s.zoneArray
    && if s.zones[z].nfree + 1 != s.zones[z].nmax || |s.zoneArray[s.zones[z].zoneIndex]| <= 1 then
         zones == s.zones.Keys && zoneFree == s.zoneFree && runs' == runs
       else if |s.zoneFree| < RELEASE_THRESHOLD then
         zones == s.zones.Keys - {z} && zoneFree == [z] + s.zoneFree && runs' == runs
       else
         zones == s.zones.Keys - {z} && zoneFree == s.zoneFree && runs' == FreeRuns(runs, z, cnt)
  }

  lemma AllFree(npages: int)
    requires 0 < npages
    ensures Covers([Run(0, npages)], npages, map[])
    ensures var n := (npages * 4 + PAGE - 1) / PAGE; 0 < n <= npages && AllocRuns([Run(0, npages)], n).1 == 0
  {
    var runs := [Run(0, npages)];
    assert runs[1..] == [];
    forall x {:trigger InRuns(runs, x)} | 0 <= x < npages ensures InRuns(runs, x) {
    }
  }

  function NoZones(zi: int): seq<int> { [] }

  /** RT_ALIGN(size, RT_MM_PAGE_SIZE) >> RT_MM_PAGE_BITS in 32-bit arithmetic. */
  function PagesFor(size: u32): int { (size + PAGE - 1) % WORD / PAGE }

  /** n pages hold `size` bytes, and n - 1 pages do not. */
  predicate JustHolds(n: int, size: int) { (n - 1) * PAGE < size <= n * PAGE }

  /** One large block is new, as long as `size` bytes need. */
  ghost predicate LargeAdded(large: map<int, int>, large': map<int, int>, b: int, size: int) {
    b !in large && b in large' && large' == large[b := large'[b]] && JustHolds(large'[b], size)
  }

  /** No free run is as long as `bytes`. */
  ghost predicate NoRunHolds(runs: seq<Run>, bytes: int) {
    forall k {:trigger runs[k]} :: 0 <= k < |runs| ==> runs[k].len * PAGE < bytes
  }

  /** The pages just hold the request, unless rounding it up wraps around to nothing. */
  lemma PagesExact(size: u32)
    requires size > 0
    ensures if size <= WORD - PAGE then JustHolds(PagesFor(size), size) && PagesFor(size) > 0 else PagesFor(size) == 0
  {
  }

  lemma FitsHolds(runs: seq<Run>, n: int, bytes: int)
    requires JustHolds(n, bytes)
    ensures Fits(runs, n) <==> !NoRunHolds(runs, bytes)
  {
    FitsMeans(runs, n);
    hide Fits;
  }

  lemma PageAddress(b: int)
    requires b >= 0
    ensures b * PAGE >= 0 && b * PAGE % PAGE == 0 && b * PAGE / PAGE == b
  {
  }

  lemma FailKeeps(runs: seq<Run>, total: int, n: int)
    requires RunsOk(0, runs, total) && n > 0
    ensures AllocRuns(runs, n).1 == NULL ==> AllocRuns(runs, n).0 == runs
  {
    AllocTakes(0, runs, total, n);
  }

  // Facts about SlabOk for the methods, which never look inside it.

  lemma CountPositive(s: Slabs)
    requires SlabOk(s)
    ensures s.zoneSize / PAGE > 0
  {
  }

  lemma LimitPositive(s: Slabs)
    requires SlabOk(s)
    ensures ZoneLimit(s.zoneSize) > 0
  {
  }

  lemma SizeKnown(s: Slabs, size: int)
    requires SlabOk(s) && 0 < size < ZoneLimit(s.zoneSize)
    ensures var (zi, m) := ZoneIndex(size);
            && 0 <= zi < NZONES && zi in s.zoneArray && m == ChunkOf(zi) && 0 < size <= m <= ZoneLimit(s.zoneSize)
            && SmallWaste(size, m)
  {
    ClassFits(s.zoneSize, size);
    SmallestClass(size);
    hide ZoneIndex, ChunkOf;
  }

  lemma AddressNotNull(s: Slabs, runs: seq<Run>, total: int, a: int)
    requires SlabOk(s) && a in s.owner && Covers(runs, total, s.blockOf)
    ensures a != NULL
  {
    hide Address, ZoneOk, InRuns, PagesOk;
    var p := s.owner[a];
    UindexBelow(s.zoneSize, p.zone, s.zones[p.zone], s.freeIndex[p.zone]);
    RecoversZone(s.zoneSize, s.zones, s.freeIndex, s.zoneFree, s.usage, s.blockOf, p.zone, p.index);
    hide ZonesOk, ZonePagesOk, OwnersOk;
  }

  /** memusage after the loop that marks the pages of a new zone. */
  ghost predicate MarkedUsage(usage: map<int, Usage>, usage': map<int, Usage>, z: int, cnt: int) {
    && (forall x {:trigger x in usage'} {:trigger x in usage} :: x in usage' <==> x in usage || z <= x < z + cnt)
    && (forall x {:trigger usage'[x]} ::
          x in usage' ==> usage'[x] == if z <= x < z + cnt then Usage(TypeSmall, x - z) else usage[x])
  }

  /** memusage agrees outside the pages of a zone. */
  ghost predicate SameUsage(usage: map<int, Usage>, usage': map<int, Usage>, z: int, cnt: int) {
    forall x {:trigger x in usage'} {:trigger usage'[x]} ::
      !(z <= x < z + cnt) && x in usage ==> x in usage' && usage'[x] == usage[x]
  }

  lemma AddFreeZone(s: Slabs, usage': map<int, Usage>, z: int)
    requires SlabOk(s) && Unused(s.blockOf, z, s.zoneSize / PAGE) && MarkedUsage(s.usage, usage', z, s.zoneSize / PAGE)
    ensures SlabOk(s.(zoneFree := [z] + s.zoneFree, usage := usage', blockOf := Grown(s.blockOf, z, s.zoneSize / PAGE)))
  {
    CountPositive(s);
    hide ZonesOk, ListsOk, OwnersOk, Grown, MarkedUsage, PagesOk, ZonePagesOk, LargeOk, Unused, Small;
    GrowZone(s.zoneSize / PAGE, s.zones, s.zoneFree, s.usage, usage', s.blockOf, s.large, z);
    SmallIs(s.zones, s.zoneFree, z);
    PagesGrowSmall(BooksOf(s), s.blockOf, z);
    SmallCons(s.zones, s.zoneFree, z);
  }

  lemma DropFreeZone(s: Slabs, usage': map<int, Usage>)
    requires SlabOk(s) && s.zoneFree != [] && SameUsage(s.usage, usage', s.zoneFree[0], s.zoneSize / PAGE)
    ensures Owns(s.blockOf, s.zoneFree[0], s.zoneSize / PAGE)
    ensures SlabOk(s.(zoneFree := s.zoneFree[1..], usage := usage',
                      blockOf := Shrunk(s.blockOf, s.zoneFree[0], s.zoneSize / PAGE)))
  {
    CountPositive(s);
    hide ZonesOk, ListsOk, OwnersOk, Shrunk, SameUsage, PagesOk, ZonePagesOk, LargeOk, Owns, Small, NoRepeats;
    var z := s.zoneFree[0];
    assert z in s.zoneFree;
    ReleaseZone(s.zoneSize / PAGE, s.zones, s.zoneFree, s.usage, usage', s.blockOf, s.large);
    FreeZoneAlone(s.zoneSize / PAGE, s.zones, s.zoneFree, s.usage, s.blockOf, s.large);
    SmallIs(s.zones, s.zoneFree, z);
    PagesShrinkSmall(BooksOf(s), s.blockOf, z);
    SmallTail(s.zones, s.zoneFree);
  }

  lemma FreeZoneAlone(cnt: int, zones: map<int, Zone>, zoneFree: seq<int>, usage: map<int, Usage>,
                      blockOf: map<int, int>,
                      large: map<int, int>)
    requires ZonePagesOk(cnt, zones, zoneFree, usage, blockOf) && LargeOk(zones, zoneFree, large, usage, blockOf)
    requires zoneFree != []
    ensures NoRepeats(zoneFree) && zoneFree[0] !in zones && zoneFree[0] !in large
  {
    hide Owns, Leads, NoRepeats;
    var z := zoneFree[0];
    assert z in zoneFree;
    assert z in zones ==> z !in zoneFree;
    assert z in large ==> z !in zoneFree;
  }

  lemma AddLarge(s: Slabs, b: int, n: int)
    requires SlabOk(s) && Unused(s.blockOf, b, n) && n > 0
    ensures b !in s.large
    ensures SlabOk(s.(usage := s.usage[b := Usage(TypeLarge, n)], large := s.large[b := n],
                      blockOf := Grown(s.blockOf, b, n)))
  {
    hide ZonesOk, ListsOk, OwnersOk, Grown, ZonePagesOk, LargeOk, PagesOk, Unused;
    GrowLarge(s.zoneSize / PAGE, s.zones, s.zoneFree, s.usage, s.blockOf, s.large, b, n);
    PagesGrowLarge(BooksOf(s), s.blockOf, b, n);
  }

  lemma DropLarge(s: Slabs, b: int)
    requires SlabOk(s) && b in s.large
    ensures Owns(s.blockOf, b, s.large[b]) && s.large[b] > 0
    ensures SlabOk(s.(usage := s.usage[b := Usage(TypeLarge, 0)], large := s.large - {b},
                      blockOf := Shrunk(s.blockOf, b, s.large[b])))
  {
    hide ZonesOk, ListsOk, OwnersOk, Shrunk, ZonePagesOk, PagesOk, Owns;
    ShrinkLarge(s.zoneSize / PAGE, s.zones, s.zoneFree, s.usage, s.blockOf, s.large, b);
    assert b !in Small(s.zones, s.zoneFree);
    hide LargeOk;
    PagesShrinkLarge(BooksOf(s), s.blockOf, b);
  }

  /** What rt_free finds in memusage: the length of a large block, or the way back to the zone of a chunk. */
  lemma KindKnown(s: Slabs, ptr: int)
    requires SlabOk(s) && (ptr in s.owner || (ptr % PAGE == 0 && ptr / PAGE in s.large))
    ensures ptr / PAGE in s.usage
    ensures ptr in s.owner ==>
              && s.usage[ptr / PAGE].kind == TypeSmall && ptr / PAGE - s.usage[ptr / PAGE].size == s.owner[ptr].zone
              && s.owner[ptr].zone in s.zones
    ensures ptr !in s.owner ==> s.usage[ptr / PAGE] == Usage(TypeLarge, s.large[ptr / PAGE])
  {
    hide Address, ZoneOk, ListsOk, PagesOk;
    if ptr in s.owner {
      var p := s.owner[ptr];
      UindexBelow(s.zoneSize, p.zone, s.zones[p.zone], s.freeIndex[p.zone]);
      RecoversZone(s.zoneSize, s.zones, s.freeIndex, s.zoneFree, s.usage, s.blockOf, p.zone, p.index);
    }
    hide ZonesOk, ZonePagesOk;
  }

  /** Live chunks never overlap one another. */
  lemma LiveApart(s: Slabs, a: int, b: int)
    requires SlabOk(s) && a in s.owner && b in s.owner && a != b
    ensures s.owner[a].zone in s.zones && s.owner[b].zone in s.zones
    ensures a + s.zones[s.owner[a].zone].chunkSize <= b || b + s.zones[s.owner[b].zone].chunkSize <= a
  {
    hide Address, ZoneOk, ListsOk, LargeOk, PagesOk;
    var p, q := s.owner[a], s.owner[b];
    UindexBelow(s.zoneSize, p.zone, s.zones[p.zone], s.freeIndex[p.zone]);
    UindexBelow(s.zoneSize, q.zone, s.zones[q.zone], s.freeIndex[q.zone]);
    ChunksDisjoint(s.zoneSize, s.zones, s.freeIndex, s.zoneFree, s.usage, s.blockOf, p.zone, p.index, q.zone, q.index);
  }

  /** A live chunk lies inside its zone, behind the header. */
  lemma LiveInside(s: Slabs, a: int)
    requires SlabOk(s) && a in s.owner
    ensures var z := s.owner[a].zone;
            && z in s.zones && z * PAGE + ZONE_HEADER <= a
            && a + s.zones[z].chunkSize <= z * PAGE + s.zoneSize && s.zones[z].chunkSize > 0
  {
    hide Address, ZoneOk, ListsOk, LargeOk, PagesOk;
    var p := s.owner[a];
    UindexBelow(s.zoneSize, p.zone, s.zones[p.zone], s.freeIndex[p.zone]);
    RecoversZone(s.zoneSize, s.zones, s.freeIndex, s.zoneFree, s.usage, s.blockOf, p.zone, p.index);
  }

  /** The pages of different blocks do not meet. */
  lemma BlocksApart(blockOf: map<int, int>, b: int, n: int, c: int, m: int)
    requires Owns(blockOf, b, n) && Owns(blockOf, c, m) && n > 0 && m > 0 && b != c
    ensures b + n <= c || c + m <= b
  {
    assert b in blockOf && c in blockOf;
  }

  /** A live chunk overlaps no zone header, its own or another's, and no free zone. */
  lemma LiveOffHeaders(s: Slabs, a: int, z: int)
    requires SlabOk(s) && a in s.owner && (z in s.zones || z in s.zoneFree)
    ensures var c := s.owner[a].zone;
            c in s.zones && (a + s.zones[c].chunkSize <= z * PAGE || z * PAGE + ZONE_HEADER <= a)
  {
    hide ZonesOk, ListsOk, LargeOk, PagesOk, OwnersOk, Owns, Leads, NoRepeats;
    LiveInside(s, a);
    var c := s.owner[a].zone;
    if c != z {
      BlocksApart(s.blockOf, c, s.zoneSize / PAGE, z, s.zoneSize / PAGE);
    }
  }

  /** Nor does it overlap a live large block. */
  lemma LiveOffLarge(s: Slabs, a: int, b: int)
    requires SlabOk(s) && a in s.owner && b in s.large
    ensures var c := s.owner[a].zone;
            c in s.zones && (a + s.zones[c].chunkSize <= b * PAGE || (b + s.large[b]) * PAGE <= a)
  {
    hide ZonesOk, ListsOk, PagesOk, OwnersOk, Owns, Leads, NoRepeats;
    LiveInside(s, a);
    BlocksApart(s.blockOf, s.owner[a].zone, s.zoneSize / PAGE, b, s.large[b]);
  }

  /** Live large blocks never overlap one another. */
  lemma LargeApart(s: Slabs, b: int, c: int)
    requires SlabOk(s) && b in s.large && c in s.large && b != c
    ensures b + s.large[b] <= c || c + s.large[c] <= b
  {
    hide ZonesOk, ListsOk, PagesOk, OwnersOk, Owns, ZonePagesOk;
    BlocksApart(s.blockOf, b, s.large[b], c, s.large[c]);
  }
}
