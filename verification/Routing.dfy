/** The address map of the simulator, and its agreement with the cacheability test of the load/store unit. */
module Routing {
  import opened Common
  import opened Arith
  import opened Isa
  import opened CacheBase

  datatype MapEntry = MapEntry(lo: nat, hi: nat, device: nat)

  const SDRAM: nat := 0
  const SRAM: nat := 1
  const CLINT: nat := 2
  const OTHER: nat := 3

  const MEM_MAP: seq<MapEntry> := [
    MapEntry(0x0200_0000, 0x0200_ffff, CLINT),
    MapEntry(0x0f00_0000, 0x0fff_ffff, SRAM),
    MapEntry(0x3000_0000, 0x3fff_ffff, SDRAM),
    MapEntry(0x8000_0000, 0x9fff_ffff, SDRAM),
    MapEntry(0xa000_0000, 0xbfff_ffff, SDRAM)]

  predicate Contains(e: MapEntry, addr: nat) {
    e.lo <= addr <= e.hi
  }

  /** device_of: the first entry that contains the address, or the default device. */
  function DeviceIn(m: seq<MapEntry>, default: nat, addr: nat): nat {
    if m == [] then default
    else if Contains(m[0], addr) then m[0].device
    else DeviceIn(m[1..], default, addr)
  }

  function DeviceOf(addr: nat): nat {
    DeviceIn(MEM_MAP, OTHER, addr)
  }

  method FindDevice(m: seq<MapEntry>, default: nat, addr: nat) returns (d: nat)
    ensures d == DeviceIn(m, default, addr)
  {
    var i := 0;
    while i < |m|
      invariant i <= |m| && DeviceIn(m, default, addr) == DeviceIn(m[i..], default, addr)
    {
      if Contains(m[i], addr) { return m[i].device; }
      i := i + 1;
    }
    d := default;
  }

  /** The map as a chain of comparisons. */
  lemma DeviceRanges(addr: nat)
    ensures DeviceOf(addr) ==
      if 0x0200_0000 <= addr <= 0x0200_ffff then CLINT
      else if 0x0f00_0000 <= addr <= 0x0fff_ffff then SRAM
      else if 0x3000_0000 <= addr <= 0x3fff_ffff || 0x8000_0000 <= addr <= 0xbfff_ffff then SDRAM
      else OTHER
  {
    var m := MEM_MAP;
    assert m[1..][0] == m[1] && m[1..][1..] == m[2..];
    assert m[2..][0] == m[2] && m[2..][1..] == m[3..];
    assert m[3..][0] == m[3] && m[3..][1..] == m[4..];
    assert m[4..][0] == m[4] && m[4..][1..] == [];
    assert DeviceIn(m, OTHER, addr) == if Contains(m[0], addr) then CLINT else DeviceIn(m[1..], OTHER, addr);
    assert DeviceIn(m[1..], OTHER, addr) == if Contains(m[1], addr) then SRAM else DeviceIn(m[2..], OTHER, addr);
    assert DeviceIn(m[2..], OTHER, addr) == if Contains(m[2], addr) then SDRAM else DeviceIn(m[3..], OTHER, addr);
    assert DeviceIn(m[3..], OTHER, addr) == if Contains(m[3], addr) then SDRAM else DeviceIn(m[4..], OTHER, addr);
    assert DeviceIn(m[4..], OTHER, addr) == if Contains(m[4], addr) then SDRAM else OTHER;
  }

  /** Over all 32-bit addresses, the data cache serves exactly what the SDRAM backs. */
  lemma CacheableIffSdram(addr: nat)
    requires addr < 0x1_0000_0000
    ensures Cacheable(addr) <==> DeviceOf(addr) == SDRAM
  {
    DeviceRanges(addr);
  }

  /** A block of at most 256 MB lies on one side of the test, so an evicted block is where its fill came from. */
  lemma BlockSameSide(g: Geometry, addr: nat)
    requires GoodGeometry(g) && 0x1000_0000 % g.lineBytes == 0
    ensures Cacheable(TagOf(g, addr)) <==> Cacheable(addr)
  {
    var m := g.lineBytes;
    var k := 0x1000_0000 / m;
    assert 0x1000_0000 == m * k;
    var top, low := addr / 0x1000_0000, addr % 0x1000_0000;
    assert addr == m * (k * top) + low by { assert m * k * top == m * (k * top); }
    DivShift(low, k * top, m);
    assert TagOf(g, addr) == 0x1000_0000 * top + (low - low % m);
    DivUnique(TagOf(g, addr), top, low - low % m, 0x1000_0000);
  }
}
