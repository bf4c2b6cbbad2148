/** The testbench memory map of testbench/memory.cc: an ordered list of address ranges, each
    a RAM, a ROM or the kernel register block of testbench/commodore.cc, searched first match
    first.  Ranges are objects because the list holds shared pointers: the commodore machine
    keeps one to its register block and updates it in place. */
module MemoryMap {

  const U32: nat := 0x1_0000_0000

  /** An `unsigned` address. */
  type Address = a: nat | a < 0x1_0000_0000

  /** An `unsigned char`. */
  type Byte = b: nat | b < 256

  /** The three address_range implementations the testbench defines. */
  datatype Kind = Ram | Rom | Registers

  /** general_RAM, general_ROM and kernel_registers_class. */
  class Range {
    const kind: Kind
    const start: Address
    const size: Address
    var data: seq<Byte>

    ghost predicate Valid()
      reads this
    {
      |data| == size
    }

    /** general_RAM: `size` zero bytes at start_address. */
    constructor RAM(startAddress: Address, count: Address)
      ensures Valid() && kind == Ram && start == startAddress && size == count
      ensures forall i :: 0 <= i < |data| ==> data[i] == 0
    {
      kind, start, size := Ram, startAddress, count;
      data := seq(count, _ => 0);
    }

    /** general_ROM: the first `size` bytes of the image, which must have that many. */
    constructor ROM(startAddress: Address, image: seq<Byte>, count: Address)
      requires count <= |image|
      ensures Valid() && kind == Rom && start == startAddress && size == count
      ensures data == image[..count]
    {
      kind, start, size := Rom, startAddress, count;
      data := image[..count];
    }

    /** kernel_registers_class: REGISTERS_SIZE zeroed bytes at REGISTERS_START. */
    constructor RegisterBlock(startAddress: Address, count: Address)
      ensures Valid() && kind == Registers && start == startAddress && size == count
      ensures forall i :: 0 <= i < |data| ==> data[i] == 0
    {
      kind, start, size := Registers, startAddress, count;
      data := seq(count, _ => 0);
    }

    /** Only the ROM refuses writes. */
    predicate Writable()
    {
      kind != Rom
    }

    /** Every range of the testbench is visible. */
    predicate Visible()
    {
      true
    }

    /** [start, start + size): general_ROM adds two `unsigned` values, so its end wraps at
        2^32; general_RAM adds a `size_t` and the register block two small constants, so
        theirs does not. */
    predicate Contains(address: Address)
    {
      && start <= address
      && address < if kind == Rom then (start + size) % U32 else start + size
    }

    /** An address the range contains lies in [start, start + size), and exactly those do unless
        a ROM ends past 2^32, in which case it contains nothing. */
    lemma ContainsExactly(address: Address)
      ensures Contains(address) ==> start <= address < start + size
      ensures start + size < U32 ==> (Contains(address) <==> start <= address < start + size)
      ensures kind == Rom && start + size >= U32 ==> !Contains(address)
    {
      if start + size < U32 {
        assert (start + size) % U32 == start + size;
      } else {
        assert (start + size) % U32 == start + size - U32;
      }
    }

    function ReadAt(address: Address): (b: Byte)
      reads this
      requires Valid() && Contains(address)
      ensures b == data[address - start]
    {
      data[address - start]
    }

    /** write of general_RAM and of the register block stores the byte; general_ROM's does
        nothing. */
    method WriteAt(address: Address, value: Byte)
      requires Valid() && Contains(address)
      modifies this
      ensures Valid()
      ensures data == if Writable() then old(data)[address - start := value] else old(data)
    {
      if kind != Rom {
        data := data[address - start := value];
      }
    }
  }

  /** testbench::memory. */
  class Memory {
    var ranges: seq<Range>

    ghost predicate Valid()
      reads this, ranges
    {
      forall i :: 0 <= i < |ranges| ==> ranges[i].Valid()
    }

    constructor ()
      ensures Valid() && ranges == []
    {
      ranges := [];
    }

    /** add_range: the range goes last, behind every range already there. */
    method AddRange(range: Range)
      requires Valid() && range.Valid()
      modifies this
      ensures Valid() && ranges == old(ranges) + [range]
      ensures forall a: Address :: old(Hit(a)) < old(|ranges|) ==> Hit(a) == old(Hit(a))
    {
      ranges := ranges + [range];
      forall a: Address | old(Hit(a)) < old(|ranges|)
        ensures Hit(a) == old(Hit(a))
      {
        HitPrefix(a, old(ranges), ranges);
      }
    }

    /** add_RAM: a fresh zeroed RAM range, added last. */
    method AddRam(startAddress: Address, count: Address) returns (range: Range)
      requires Valid()
      modifies this
      ensures Valid() && ranges == old(ranges) + [range] && fresh(range)
      ensures range.kind == Ram && range.start == startAddress && range.size == count
      ensures forall i :: 0 <= i < |range.data| ==> range.data[i] == 0
    {
      range := new Range.RAM(startAddress, count);
      AddRange(range);
    }

    /** add_ROM: a ROM over the first `count` bytes of the image, added last. */
    method AddRom(startAddress: Address, image: seq<Byte>, count: Address) returns (range: Range)
      requires Valid() && count <= |image|
      modifies this
      ensures Valid() && ranges == old(ranges) + [range] && fresh(range)
      ensures range.kind == Rom && range.start == startAddress && range.size == count
      ensures range.data == image[..count]
    {
      range := new Range.ROM(startAddress, image, count);
      AddRange(range);
    }

    /** The index of the first visible range that contains the address, or |ranges| if
        none does. */
    function Hit(address: Address): (k: nat)
      reads this
      ensures k <= |ranges|
      ensures k < |ranges| ==> ranges[k].Visible() && ranges[k].Contains(address)
      ensures forall j :: 0 <= j < k ==> !(ranges[j].Visible() && ranges[j].Contains(address))
    {
      HitFrom(ranges, address, 0)
    }

    /** The byte read returns: the first hit's, or 0 when no range holds the address. */
    function Value(address: Address): (b: Byte)
      reads this, ranges
      requires Valid()
      ensures Hit(address) == |ranges| ==> b == 0
      ensures Hit(address) < |ranges| ==> b == ranges[Hit(address)].data[address - ranges[Hit(address)].start]
    {
      var k := Hit(address);
      if k < |ranges| then ranges[k].ReadAt(address) else 0
    }

    /** read: the first visible range containing the address answers; with none, 0. */
    method Read(address: Address) returns (value: Byte)
      requires Valid()
      ensures value == Value(address)
    {
      var i := 0;
      while i < |ranges|
        invariant 0 <= i <= |ranges|
        invariant HitFrom(ranges, address, i) == Hit(address)
      {
        var range := ranges[i];
        if range.Visible() && range.Contains(address) {
          return range.ReadAt(address);
        }
        i := i + 1;
      }
      return 0;
    }

    /** The search loop of write: the index of the first visible range holding the address. */
    method Find(address: Address) returns (i: nat)
      ensures i == Hit(address)
    {
      i := 0;
      while i < |ranges| && !(ranges[i].Visible() && ranges[i].Contains(address))
        invariant 0 <= i <= |ranges|
        invariant HitFrom(ranges, address, i) == Hit(address)
      {
        i := i + 1;
      }
    }

    /** write: only the first visible range containing the address is offered the byte, and
        it keeps it only if writable, so a ROM discards a write even where a later RAM covers
        the address.  No other range changes, and every other address reads as before. */
    method Write(address: Address, value: Byte)
      requires Valid()
      modifies ranges
      ensures Valid() && ranges == old(ranges)
      ensures Hit(address) < |ranges| && ranges[Hit(address)].Writable() ==> Value(address) == value
      ensures !(Hit(address) < |ranges| && ranges[Hit(address)].Writable()) ==> Value(address) == old(Value(address))
      ensures forall b: Address :: b != address ==> Value(b) == old(Value(b))
      ensures Hit(address) < |ranges| ==>
        var hit := ranges[Hit(address)];
        hit.data == if hit.Writable() then old(hit.data)[address - hit.start := value] else old(hit.data)
      ensures forall r :: r in ranges && (Hit(address) == |ranges| || r != ranges[Hit(address)]) ==>
        r.data == old(r.data)
    {
      var i := Find(address);
      if i < |ranges| && ranges[i].Writable() {
        var range := ranges[i];
        range.WriteAt(address, value);
      }
    }
  }

  function HitFrom(ranges: seq<Range>, address: Address, i: nat): (k: nat)
    requires i <= |ranges|
    ensures i <= k <= |ranges|
    ensures k < |ranges| ==> ranges[k].Visible() && ranges[k].Contains(address)
    ensures forall j :: i <= j < k ==> !(ranges[j].Visible() && ranges[j].Contains(address))
    decreases |ranges| - i
  {
    if i == |ranges| then i
    else if ranges[i].Visible() && ranges[i].Contains(address) then i
    else HitFrom(ranges, address, i + 1)
  }

  /** Appending ranges never changes a hit among the earlier ones. */
  lemma HitPrefix(address: Address, a: seq<Range>, b: seq<Range>)
    requires a <= b && HitFrom(a, address, 0) < |a|
    ensures HitFrom(b, address, 0) == HitFrom(a, address, 0)
  {
    var k := HitFrom(a, address, 0);
    assert b[k] == a[k];
    HitAt(b, address, 0, k);
  }

  /** The first hit is the first index that holds the address. */
  lemma {:induction false} HitAt(ranges: seq<Range>, address: Address, i: nat, k: nat)
    requires i <= k < |ranges|
    requires ranges[k].Visible() && ranges[k].Contains(address)
    requires forall j :: i <= j < k ==> !(ranges[j].Visible() && ranges[j].Contains(address))
    ensures HitFrom(ranges, address, i) == k
    decreases k - i
  {
    if i < k {
      HitAt(ranges, address, i + 1, k);
    }
  }

  /** The map is searched in registration order: when a ROM registered first and a RAM
      registered after it both cover an address, a write there is discarded and the ROM
      byte is read back, as the C64 and VIC-20 setups rely on for their BASIC ROMs. */
  method RomShadowsRam(image: seq<Byte>, address: Address, value: Byte) returns (before: Byte, after: Byte)
    requires 0xa000 <= address < 0xc000 && |image| >= 0x2000
    ensures before == after == image[address - 0xa000]
  {
    var memory := new Memory();
    var rom := memory.AddRom(0xa000, image, 0x2000);
    var ram := memory.AddRam(0, 0x10000);
    assert memory.Hit(address) == 0;
    before := memory.Read(address);
    memory.Write(address, value);
    after := memory.Read(address);
  }

  /** Behind the ROMs, a RAM write is read back. */
  method RamReadsBack(image: seq<Byte>, address: Address, value: Byte) returns (before: Byte, after: Byte)
    requires address < 0xa000 && |image| >= 0x2000
    ensures before == 0 && after == value
  {
    var memory := new Memory();
    var rom := memory.AddRom(0xa000, image, 0x2000);
    var ram := memory.AddRam(0, 0x10000);
    assert !memory.ranges[0].Contains(address);
    HitAt(memory.ranges, address, 0, 1);
    before := memory.Read(address);
    memory.Write(address, value);
    after := memory.Read(address);
  }
}
