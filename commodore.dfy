/** The kernel system-call handshake of testbench/commodore.cc.  The tiny kernel ROM talks to
    the testbench through a block of registers in the memory map: it stores a request in the
    select register, a character in io, and sets ack when it has taken a character; once per
    CPU cycle the testbench serves the request and clears the three registers when it is done.
    The register addresses and request codes come from cbm_tiny_kernel.h, which is not part of
    this model: they are a KernelLayout parameter.  The input and output files are sequences
    of bytes; the end of the input plays the part of EOF. */
module Commodore {
  import opened MemoryMap

  /** REGISTERS_START, REGISTERS_SIZE, the OFF_SELECT / OFF_IO / OFF_ACK offsets and the
      SELECT_CHRIN / SELECT_CHROUT / SELECT_NOT_IMPL request codes. */
  datatype KernelLayout = KernelLayout(
    registersStart: Address, registersSize: Address,
    offSelect: nat, offIo: nat, offAck: nat,
    selectChrin: Byte, selectChrout: Byte, selectNotImpl: Byte)

  /** The block fits below 2^32, the three registers lie inside it, and the request codes
      are the distinct labels of one switch. */
  predicate LayoutOk(L: KernelLayout) {
    && L.registersStart + L.registersSize <= U32
    && L.offSelect < L.registersSize && L.offIo < L.registersSize && L.offAck < L.registersSize
    && L.selectChrin != L.selectChrout && L.selectChrin != L.selectNotImpl
    && L.selectChrout != L.selectNotImpl
  }

  /** is_syscall_address: the 39 three-byte jump slots of the kernel table from $FF81 to
      $FFF3. */
  predicate IsSyscallAddress(address: Address) {
    address >= 0xff81 && address <= 0xfff3 && (address - 0xff81) % 3 == 0
  }

  /** The syscall addresses are exactly $FF81 + 3k for k < 39; CHRIN ($FFCF) and CHROUT
      ($FFD2) are among them, the interrupt vectors from $FFFA are not. */
  lemma SyscallSlots(address: Address)
    ensures IsSyscallAddress(address) <==> exists k :: 0 <= k < 39 && address == 0xff81 + 3 * k
    ensures IsSyscallAddress(0xffcf) && IsSyscallAddress(0xffd2)
    ensures address >= 0xfff4 ==> !IsSyscallAddress(address)
  {
    if IsSyscallAddress(address) {
      var k := (address - 0xff81) / 3;
      assert address == 0xff81 + 3 * k;
    }
  }

  /** The register block, the rest of the input, and everything output so far. */
  datatype Console = Console(regs: seq<Byte>, input: seq<Byte>, output: seq<Byte>)

  /** What handle_chrin does: with io empty it reads one character into io (nothing at the
      end of the input) and asks for no clearing; with io full it asks for clearing once the
      kernel has acknowledged. */
  datatype Served = Served(clear: bool, c: Console)

  function HandleChrin(L: KernelLayout, c: Console): (r: Served)
    requires LayoutOk(L) && |c.regs| == L.registersSize
    ensures |r.c.regs| == |c.regs| && r.c.output == c.output
    ensures c.regs[L.offIo] == 0 ==> !r.clear
    ensures c.regs[L.offIo] == 0 && c.input != [] ==>
      r.c.input == c.input[1..] && r.c.regs == c.regs[L.offIo := c.input[0]]
    ensures c.regs[L.offIo] == 0 && c.input == [] ==> r.c == c
    ensures c.regs[L.offIo] != 0 ==> r.c == c && (r.clear <==> c.regs[L.offAck] != 0)
  {
    if c.regs[L.offIo] == 0 then
      if c.input != [] then
        Served(false, c.(regs := c.regs[L.offIo := c.input[0]], input := c.input[1..]))
      else Served(false, c)
    else Served(c.regs[L.offAck] != 0, c)
  }

  /** What handle_chrout does: a full io register is written out and the request cleared. */
  function HandleChrout(L: KernelLayout, c: Console): (r: Served)
    requires LayoutOk(L) && |c.regs| == L.registersSize
    ensures r.c.regs == c.regs && r.c.input == c.input
    ensures r.clear <==> c.regs[L.offIo] != 0
    ensures r.c.output == if r.clear then c.output + [c.regs[L.offIo]] else c.output
  {
    if c.regs[L.offIo] != 0 then Served(true, c.(output := c.output + [c.regs[L.offIo]]))
    else Served(false, c)
  }

  /** The three handshake registers zeroed, in the order on_CPU_cycle stores them. */
  function Cleared(L: KernelLayout, regs: seq<Byte>): (r: seq<Byte>)
    requires LayoutOk(L) && |regs| == L.registersSize
    ensures |r| == |regs|
    ensures r[L.offSelect] == 0 && r[L.offIo] == 0 && r[L.offAck] == 0
    ensures forall i :: 0 <= i < |r| && i != L.offSelect && i != L.offIo && i != L.offAck ==> r[i] == regs[i]
  {
    regs[L.offSelect := 0][L.offIo := 0][L.offAck := 0]
  }

  /** One on_CPU_cycle: dispatch on select, then clear the handshake if the handler asks. */
  function Cycle(L: KernelLayout, c: Console): (r: Console)
    requires LayoutOk(L) && |c.regs| == L.registersSize
    ensures |r.regs| == |c.regs|
  {
    var select := c.regs[L.offSelect];
    var served :=
      if select == L.selectChrin then HandleChrin(L, c)
      else if select == L.selectChrout then HandleChrout(L, c)
      else if select == L.selectNotImpl then Served(true, c)
      else Served(false, c);
    if served.clear then served.c.(regs := Cleared(L, served.c.regs)) else served.c
  }

  /** CHRIN with io empty consumes one input character into io (none at the end of input)
      and clears nothing. */
  lemma ChrinEmptyIo(L: KernelLayout, c: Console)
    requires LayoutOk(L) && |c.regs| == L.registersSize
    requires c.regs[L.offSelect] == L.selectChrin && c.regs[L.offIo] == 0
    ensures c.input != [] ==> Cycle(L, c) == c.(regs := c.regs[L.offIo := c.input[0]], input := c.input[1..])
    ensures c.input == [] ==> Cycle(L, c) == c
  {
  }

  /** CHRIN with io full clears the handshake exactly when ack is set, and touches no I/O. */
  lemma ChrinFullIo(L: KernelLayout, c: Console)
    requires LayoutOk(L) && |c.regs| == L.registersSize
    requires c.regs[L.offSelect] == L.selectChrin && c.regs[L.offIo] != 0
    ensures Cycle(L, c) == if c.regs[L.offAck] != 0 then c.(regs := Cleared(L, c.regs)) else c
  {
  }

  /** CHROUT emits io and clears the handshake when io is full, and does nothing otherwise. */
  lemma Chrout(L: KernelLayout, c: Console)
    requires LayoutOk(L) && |c.regs| == L.registersSize
    requires c.regs[L.offSelect] == L.selectChrout
    ensures c.regs[L.offIo] != 0 ==>
      Cycle(L, c) == c.(regs := Cleared(L, c.regs), output := c.output + [c.regs[L.offIo]])
    ensures c.regs[L.offIo] == 0 ==> Cycle(L, c) == c
  {
  }

  /** SELECT_NOT_IMPL clears the handshake; any other select value changes nothing. */
  lemma OtherSelect(L: KernelLayout, c: Console)
    requires LayoutOk(L) && |c.regs| == L.registersSize
    requires c.regs[L.offSelect] != L.selectChrin && c.regs[L.offSelect] != L.selectChrout
    ensures c.regs[L.offSelect] == L.selectNotImpl ==> Cycle(L, c) == c.(regs := Cleared(L, c.regs))
    ensures c.regs[L.offSelect] != L.selectNotImpl ==> Cycle(L, c) == c
  {
  }

  /** A cycle reads at most one input character and writes at most one output character,
      never both, and keeps everything already written. */
  lemma CycleIo(L: KernelLayout, c: Console)
    requires LayoutOk(L) && |c.regs| == L.registersSize
    ensures var r := Cycle(L, c);
      && (r.input == c.input || (c.input != [] && r.input == c.input[1..]))
      && (r.output == c.output || (|r.output| == |c.output| + 1 && r.output[..|c.output|] == c.output))
      && (r.input == c.input || r.output == c.output)
  {
    var r := Cycle(L, c);
    if |r.output| != |c.output| {
      assert r.output == c.output + [c.regs[L.offIo]];
      assert r.output[..|c.output|] == c.output;
    }
  }

  /** Once the handshake is cleared the testbench is idle: with no request code equal to 0, a
      cycle after a clearing cycle changes nothing until the kernel stores a new request. */
  lemma ClearedIsIdle(L: KernelLayout, c: Console)
    requires LayoutOk(L) && |c.regs| == L.registersSize
    requires L.selectChrin != 0 && L.selectChrout != 0 && L.selectNotImpl != 0
    ensures Cycle(L, c.(regs := Cleared(L, c.regs))) == c.(regs := Cleared(L, c.regs))
  {
  }

  /** The machine part of a commodore: its memory map with the kernel ROM at the top of the
      64K space and the register block behind it, plus the console files. */
  class Machine {
    const layout: KernelLayout
    const memory: Memory
    const registers: Range
    var input: seq<Byte>
    var output: seq<Byte>

    ghost predicate Valid()
      reads this, memory, memory.ranges, registers
    {
      && LayoutOk(layout) && memory.Valid() && registers.Valid()
      && registers in memory.ranges && registers.kind == Registers
      && registers.start == layout.registersStart && registers.size == layout.registersSize
    }

    function State(): (c: Console)
      reads this, registers
      ensures c.regs == registers.data && c.input == input && c.output == output
    {
      Console(registers.data, input, output)
    }

    /** commodore::commodore: add_ROM of the kernel image at 0x10000 minus its length, then
        add_range of a fresh, zeroed register block. */
    constructor (L: KernelLayout, kernel: seq<Byte>, console: seq<Byte>)
      requires LayoutOk(L) && |kernel| <= 0x10000
      ensures Valid() && layout == L && input == console && output == []
      ensures fresh(memory) && fresh(registers) && |memory.ranges| == 2
      ensures memory.ranges[0].kind == Rom && memory.ranges[0].start == 0x10000 - |kernel|
      ensures memory.ranges[0].data == kernel && memory.ranges[1] == registers
      ensures forall i :: 0 <= i < |registers.data| ==> registers.data[i] == 0
    {
      var m := new Memory();
      var rom := m.AddRom(0x10000 - |kernel|, kernel, |kernel|);
      var block := new Range.RegisterBlock(L.registersStart, L.registersSize);
      m.AddRange(block);
      layout, memory, registers := L, m, block;
      input, output := console, [];
    }

    /** The CPU sees the register block through the memory map wherever the kernel ROM,
        registered first, does not cover it. */
    lemma RegistersMapped(address: Address)
      requires Valid() && |memory.ranges| >= 2 && memory.ranges[1] == registers
      requires !memory.ranges[0].Contains(address)
      requires layout.registersStart <= address < layout.registersStart + layout.registersSize
      ensures memory.Value(address) == registers.data[address - layout.registersStart]
    {
      HitAt(memory.ranges, address, 0, 1);
    }

    /** on_CPU_cycle: serves the pending request against the registers and the files.  The
        trace output about syscall addresses is not modelled. */
    method OnCpuCycle()
      requires Valid()
      modifies registers, this`input, this`output
      ensures Valid() && State() == Cycle(layout, old(State()))
    {
      var select := registers.data[layout.offSelect];
      var clearAll: bool;
      if select == layout.selectChrin {
        clearAll := Chrin();
      } else if select == layout.selectChrout {
        clearAll := Chrout();
      } else if select == layout.selectNotImpl {
        clearAll := true;
      } else {
        clearAll := false;
      }
      if clearAll {
        registers.data := registers.data[layout.offSelect := 0];
        registers.data := registers.data[layout.offIo := 0];
        registers.data := registers.data[layout.offAck := 0];
      }
    }

    /** handle_chrin on the registers and the input file. */
    method Chrin() returns (clear: bool)
      requires Valid()
      modifies registers, this`input
      ensures Valid() && output == old(output)
      ensures Served(clear, State()) == HandleChrin(layout, old(State()))
    {
      if registers.data[layout.offIo] == 0 {
        if input != [] {
          registers.data := registers.data[layout.offIo := input[0]];
          input := input[1..];
        }
        return false;
      } else {
        return registers.data[layout.offAck] != 0;
      }
    }

    /** handle_chrout on the registers and the output file. */
    method Chrout() returns (clear: bool)
      requires Valid()
      modifies this`output
      ensures Valid() && input == old(input) && registers.data == old(registers.data)
      ensures Served(clear, State()) == HandleChrout(layout, old(State()))
    {
      if registers.data[layout.offIo] != 0 {
        output := output + [registers.data[layout.offIo]];
        return true;
      } else {
        return false;
      }
    }
  }
}
