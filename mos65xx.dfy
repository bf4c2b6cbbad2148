/** The 65xx chip facade of src/mos65xx.cc: pins, buses and registers of the MOS 6502 family
    read and written through the node helpers of the network engine, and the on-chip I/O
    port of the 6510 family.  The netlist's NODE ids are not part of this model: a Netlist
    value names them. */
module Mos65xx {
  import opened Bits
  import opened NmosSpec
  import Nmos

  /** The seven chips of the family. */
  datatype Variant = MOS6502 | MOS6503 | MOS6504 | MOS6505 | MOS6510 | MOS6510_1 | MOS6510_2

  /** pin_count of each variant. */
  function PinCount(v: Variant): (n: nat)
    ensures n == 28 || n == 40
    ensures n == 28 <==> v in {MOS6503, MOS6504, MOS6505}
  {
    match v
    case MOS6502 => 40
    case MOS6503 => 28
    case MOS6504 => 28
    case MOS6505 => 28
    case _ => 40
  }

  /** address_bus_width of each variant: the 6510 family inherits the 16 lines of
      implementation_6500_with_IO. */
  function AddressBusWidth(v: Variant): (w: nat)
    ensures 11 <= w <= 16
    ensures w == 16 <==> v in {MOS6502, MOS6510, MOS6510_1, MOS6510_2}
    ensures w == 11 <==> v in {MOS6503, MOS6505}
    ensures w == 12 <==> v == MOS6504
  {
    match v
    case MOS6502 => 16
    case MOS6503 => 11
    case MOS6504 => 12
    case MOS6505 => 11
    case _ => 16
  }

  /** The variants built on implementation_6500_with_IO. */
  predicate HasIoPort(v: Variant) {
    v in {MOS6510, MOS6510_1, MOS6510_2}
  }

  /** The pseudo node ids the 6510 pinouts use for the AEC pin and the eight port pins. */
  const AecNodeId: nat := 0xffef
  const IoportId0: nat := 0xfff0
  const IoportId7: nat := 0xfff7

  /** The node ids the facade reads, each list most significant bit first: AB15 .. AB0,
      DB7 .. DB0, the registers, and the R/W line.  Bit 5 of P has no node: its slot is 0. */
  datatype Netlist = Netlist(
    addressBus: seq<nat>,
    dataBus: seq<nat>,
    a: seq<nat>, x: seq<nat>, y: seq<nat>, s: seq<nat>, p: seq<nat>,
    pch: seq<nat>, pcl: seq<nat>, ir: seq<nat>,
    rw: nat)

  predicate NetlistOk(w: Netlist) {
    && |w.addressBus| == 16 && |w.dataBus| == 8
    && |w.a| == 8 && |w.x| == 8 && |w.y| == 8 && |w.s| == 8 && |w.p| == 8
    && |w.pch| == 8 && |w.pcl| == 8 && |w.ir| == 8
    && w.p[2] == 0
  }

  /** What pin index of a variant is wired to, as pin_write and pin_read tell it apart. */
  datatype PinRole = NoPin | AecPin | PortPin(bit: nat) | NodePin(id: nat)

  function Role(v: Variant, pinout: seq<nat>, index: nat): (r: PinRole)
    requires |pinout| == PinCount(v)
    ensures r.NoPin? <==> index == 0 || index > PinCount(v)
    ensures r.PortPin? ==> r.bit < 8 && HasIoPort(v) && pinout[index - 1] == IoportId0 + r.bit
    ensures r.AecPin? ==> HasIoPort(v) && pinout[index - 1] == AecNodeId
    ensures r.NodePin? ==> r.id == pinout[index - 1]
    ensures !HasIoPort(v) && 0 < index <= PinCount(v) ==> r == NodePin(pinout[index - 1])
  {
    if index == 0 || index > PinCount(v) then NoPin
    else
      var id := pinout[index - 1];
      if !HasIoPort(v) then NodePin(id)
      else if id == AecNodeId then AecPin
      else if IoportId0 <= id <= IoportId7 then PortPin(id - IoportId0)
      else NodePin(id)
  }

  /** `1 << port_index` in the port registers. */
  function PortMask(i: nat): (m: bv8)
    requires i < 8
    ensures m == (1 as bv8) << i
  {
    match i
    case 0 => 1
    case 1 => 2
    case 2 => 4
    case 3 => 8
    case 4 => 16
    case 5 => 32
    case 6 => 64
    case 7 => 128
  }

  /** Bit i of a port register. */
  predicate PortBit(b: bv8, i: nat)
    requires i < 8
  {
    b & PortMask(i) != 0
  }

  /** `ioports |= 1 << i` or `ioports &= ~(1 << i)`: bit i takes the value, the others stay. */
  function SetPortBit(b: bv8, i: nat, value: bool): (r: bv8)
    requires i < 8
    ensures PortBit(r, i) == value
    ensures forall j :: 0 <= j < 8 && j != i ==> PortBit(r, j) == PortBit(b, j)
  {
    var r := if value then b | PortMask(i) else b & !PortMask(i);
    forall j | 0 <= j < 8 && j != i
      ensures PortBit(r, j) == PortBit(b, j)
    {
      MasksDisjoint(i, j);
      OtherBit(b, PortMask(i), PortMask(j), value);
    }
    r
  }

  lemma MasksDisjoint(i: nat, j: nat)
    requires i < 8 && j < 8 && i != j
    ensures PortMask(i) & PortMask(j) == 0
  {
  }

  lemma OtherBit(b: bv8, mi: bv8, mj: bv8, value: bool)
    requires mi & mj == 0
    ensures (if value then b | mi else b & !mi) & mj == b & mj
  {
  }

  /** The bits of a port register, most significant first. */
  function PortBits(b: bv8): (bs: seq<bool>)
    ensures |bs| == 8 && forall j :: 0 <= j < 8 ==> bs[j] == PortBit(b, 7 - j)
  {
    seq(8, j requires 0 <= j < 8 => PortBit(b, 7 - j))
  }

  /** A port register as the byte a bus write drives: bit i of the byte is bit i of the
      register. */
  function PortByte(b: bv8): (n: nat)
    ensures n < 256
    ensures forall i :: 0 <= i < 8 ==> (Bit(n, i) <==> PortBit(b, i))
  {
    var bs := PortBits(b);
    assert Pow2(8) == 256;
    forall i | 0 <= i < 8
      ensures Bit(FromBits(bs), i) == PortBit(b, i)
    {
      FromBitsBit(bs, 7 - i);
    }
    FromBits(bs)
  }

  /** A byte read from the data bus, as it lands in a port register. */
  function ByteToPort(n: nat): (b: bv8)
    requires n < 256
    ensures forall i :: 0 <= i < 8 ==> (PortBit(b, i) <==> Bit(n, i))
  {
    var r: bv8 :=
      (if Bit(n, 0) then 1 else 0) | (if Bit(n, 1) then 2 else 0)
      | (if Bit(n, 2) then 4 else 0) | (if Bit(n, 3) then 8 else 0)
      | (if Bit(n, 4) then 16 else 0) | (if Bit(n, 5) then 32 else 0)
      | (if Bit(n, 6) then 64 else 0) | (if Bit(n, 7) then 128 else 0);
    r
  }

  /** implementation_6500 and implementation_6500_with_IO over one network engine: the
      variant selects pin_count, address_bus_width and, for the 6510 family, the I/O port
      behaviour of pin_write and pin_read. */
  class Chip {
    const variant: Variant
    const netlist: Netlist
    const pinout: seq<nat>
    const net: Nmos.Engine
    /** is_aec_high, ioports and iodirs of the 6510 family; unused by the other variants. */
    var isAecHigh: bool
    var ioports: bv8
    var iodirs: bv8

    ghost predicate Valid()
      reads this, net, net.nodes, net.on, net.changedQueue
    {
      |pinout| == PinCount(variant) && NetlistOk(netlist) && net.Valid()
    }

    constructor (v: Variant, w: Netlist, pins: seq<nat>, engine: Nmos.Engine)
      requires |pins| == PinCount(v) && NetlistOk(w) && engine.Valid()
      ensures Valid() && variant == v && netlist == w && pinout == pins && net == engine
      ensures !isAecHigh && ioports == 0 && iodirs == 0
    {
      variant, netlist, pinout, net := v, w, pins, engine;
      isAecHigh, ioports, iodirs := false, 0, 0;
    }

    /** An 8-node register or bus as an unsigned char: bit 7 - i is the level of ids[i]. */
    function ReadByte(ids: seq<nat>): (r: nat)
      reads this, net, net.nodes, net.on, net.changedQueue
      requires Valid() && |ids| == 8
      ensures r < 256
      ensures forall i :: 0 <= i < 8 ==> Bit(r, 7 - i) == net.GetNode(ids[i])
    {
      assert Pow2(8) == 256;
      net.ReadNodes(ids) % 0x100
    }

    function A(): (r: nat)
      reads this, net, net.nodes, net.on, net.changedQueue
      requires Valid()
      ensures r < 256 && forall i :: 0 <= i < 8 ==> Bit(r, i) == net.GetNode(netlist.a[7 - i])
    {
      ReadByte(netlist.a)
    }

    function X(): (r: nat)
      reads this, net, net.nodes, net.on, net.changedQueue
      requires Valid()
      ensures r < 256 && forall i :: 0 <= i < 8 ==> Bit(r, i) == net.GetNode(netlist.x[7 - i])
    {
      ReadByte(netlist.x)
    }

    function Y(): (r: nat)
      reads this, net, net.nodes, net.on, net.changedQueue
      requires Valid()
      ensures r < 256 && forall i :: 0 <= i < 8 ==> Bit(r, i) == net.GetNode(netlist.y[7 - i])
    {
      ReadByte(netlist.y)
    }

    function S(): (r: nat)
      reads this, net, net.nodes, net.on, net.changedQueue
      requires Valid()
      ensures r < 256 && forall i :: 0 <= i < 8 ==> Bit(r, i) == net.GetNode(netlist.s[7 - i])
    {
      ReadByte(netlist.s)
    }

    /** The status register: bit 5 reads node 0, which get_node reports low. */
    function P(): (r: nat)
      reads this, net, net.nodes, net.on, net.changedQueue
      requires Valid()
      ensures r < 256 && !Bit(r, 5)
      ensures forall i :: 0 <= i < 8 && i != 5 ==> Bit(r, i) == net.GetNode(netlist.p[7 - i])
    {
      ReadByte(netlist.p)
    }

    function PCH(): (r: nat)
      reads this, net, net.nodes, net.on, net.changedQueue
      requires Valid()
      ensures r < 256 && forall i :: 0 <= i < 8 ==> Bit(r, i) == net.GetNode(netlist.pch[7 - i])
    {
      ReadByte(netlist.pch)
    }

    function PCL(): (r: nat)
      reads this, net, net.nodes, net.on, net.changedQueue
      requires Valid()
      ensures r < 256 && forall i :: 0 <= i < 8 ==> Bit(r, i) == net.GetNode(netlist.pcl[7 - i])
    {
      ReadByte(netlist.pcl)
    }

    /** PC: PCH shifted up by eight bits, plus PCL. */
    function PC(): (r: nat)
      reads this, net, net.nodes, net.on, net.changedQueue
      requires Valid()
      ensures r < 0x10000 && r / 256 == PCH() && r % 256 == PCL()
    {
      PCH() * 256 + PCL()
    }

    /** The instruction register, read through the inverted NOTIR nodes as wired. */
    function IR(): (r: nat)
      reads this, net, net.nodes, net.on, net.changedQueue
      requires Valid()
      ensures r < 256 && forall i :: 0 <= i < 8 ==> Bit(r, i) == net.GetNode(netlist.ir[7 - i])
    {
      ReadByte(netlist.ir)
    }

    function ReadDataBus(): (r: nat)
      reads this, net, net.nodes, net.on, net.changedQueue
      requires Valid()
      ensures r < 256 && forall i :: 0 <= i < 8 ==> Bit(r, i) == net.GetNode(netlist.dataBus[7 - i])
    {
      ReadByte(netlist.dataBus)
    }

    /** read_address_bus: only the last address_bus_width ids of AB15 .. AB0 are read, so
        bit k is line ABk and nothing above the width is set. */
    function ReadAddressBus(): (r: nat)
      reads this, net, net.nodes, net.on, net.changedQueue
      requires Valid()
      ensures r < Pow2(AddressBusWidth(variant))
      ensures forall k :: 0 <= k < AddressBusWidth(variant) ==> Bit(r, k) == net.GetNode(netlist.addressBus[15 - k])
    {
      var w := AddressBusWidth(variant);
      var ids := netlist.addressBus[16 - w..];
      var r := net.ReadNodes(ids);
      assert forall k :: 0 <= k < w ==> Bit(r, k) == net.GetNode(netlist.addressBus[15 - k]) by {
        forall k | 0 <= k < w
          ensures Bit(r, k) == net.GetNode(netlist.addressBus[15 - k])
        {
          var i := w - 1 - k;
          assert ids[i] == netlist.addressBus[15 - k];
          assert Bit(r, |ids| - 1 - i) == net.GetNode(ids[i]);
        }
      }
      r
    }

    /** write_data_bus: write_nodes over DB7 .. DB0; when the data lines are distinct real
        nodes, line DBi is left driven by bit i of the byte. */
    method WriteDataBus(value: nat)
      requires Valid() && value < 256
      modifies net`feeding, net.nodes, net.changedQueue
      ensures Valid()
      ensures net.Abs() == WriteNodes(net.topo, old(net.Abs()), netlist.dataBus, value)
      ensures Distinct(netlist.dataBus) ==> forall i :: 0 <= i < 8 && 1 <= netlist.dataBus[7 - i] <= net.topo.nodeCount ==>
        net.nodes[netlist.dataBus[7 - i]].pullup == Bit(value, i)
    {
      net.WriteNodes(netlist.dataBus, value);
      if Distinct(netlist.dataBus) {
        forall i | 0 <= i < 8 && 1 <= netlist.dataBus[7 - i] <= net.topo.nodeCount
          ensures net.nodes[netlist.dataBus[7 - i]].pullup == Bit(value, i)
        {
          WriteNodesPullup(net.topo, old(net.Abs()), netlist.dataBus, value, 7 - i);
        }
      }
    }

    /** pin_write: out-of-range pins are ignored; on the 6510 family the AEC pin only sets
        is_aec_high and port pin i sets bit i of ioports unless the port drives it (bit i of
        iodirs set); every other pin drives its node.  iodirs never changes here. */
    method PinWrite(index: nat, value: bool)
      requires Valid()
      modifies this`isAecHigh, this`ioports, net`feeding, net.nodes, net.changedQueue
      ensures Valid() && iodirs == old(iodirs)
      ensures match Role(variant, pinout, index)
        case NoPin =>
          isAecHigh == old(isAecHigh) && ioports == old(ioports) && net.Abs() == old(net.Abs())
        case AecPin =>
          isAecHigh == value && ioports == old(ioports) && net.Abs() == old(net.Abs())
        case PortPin(i) =>
          && isAecHigh == old(isAecHigh) && net.Abs() == old(net.Abs())
          && ioports == PortWrite(iodirs, old(ioports), i, value)
        case NodePin(id) =>
          && isAecHigh == old(isAecHigh) && ioports == old(ioports)
          && net.Abs() == NmosSpec.SetNode(net.topo, old(net.Abs()), id, value)
    {
      match Role(variant, pinout, index)
      case NoPin =>
      case AecPin =>
        isAecHigh := value;
      case PortPin(i) =>
        if iodirs & PortMask(i) == 0 {
          ioports := SetPortBit(ioports, i, value);
        }
      case NodePin(id) =>
        net.SetNode(id, value);
    }

    /** pin_read: false for out-of-range pins; on the 6510 family the AEC pin reads
        is_aec_high and port pin i reads bit i of ioports when the port drives it, false
        when it does not; every other pin reads its node. */
    function PinRead(index: nat): (r: bool)
      reads this, net, net.nodes, net.on, net.changedQueue
      requires Valid()
      ensures match Role(variant, pinout, index)
        case NoPin => !r
        case AecPin => r == isAecHigh
        case PortPin(i) => r == PortRead(iodirs, ioports, i)
        case NodePin(id) => r == net.GetNode(id)
    {
      if 0 < index <= PinCount(variant) then
        var id := pinout[index - 1];
        if HasIoPort(variant) && id == AecNodeId then isAecHigh
        else if HasIoPort(variant) && IoportId0 <= id <= IoportId7 then
          var i := id - IoportId0;
          if iodirs & PortMask(i) != 0 then ioports & PortMask(i) != 0 else false
        else net.GetNode(id)
      else false
    }

    /** port_hoook: at address 0 a read cycle (R/W high) loads iodirs from the data bus and a
        write cycle drives the bus with iodirs; at address 1 the bus is driven with ioports;
        any other address changes nothing.  Only the variants with the I/O port have it. */
    method PortHook()
      requires Valid() && HasIoPort(variant)
      modifies this`iodirs, net`feeding, net.nodes, net.changedQueue
      ensures Valid() && ioports == old(ioports) && isAecHigh == old(isAecHigh)
      ensures var address := old(ReadAddressBus());
        if address == 0 && old(net.GetNode(netlist.rw)) then
          && net.Abs() == old(net.Abs())
          && forall i :: 0 <= i < 8 ==> (PortBit(iodirs, i) <==> old(net.GetNode(netlist.dataBus[7 - i])))
        else if address == 0 then
          iodirs == old(iodirs) && net.Abs() == WriteNodes(net.topo, old(net.Abs()), netlist.dataBus, PortByte(iodirs))
        else if address == 1 then
          iodirs == old(iodirs) && net.Abs() == WriteNodes(net.topo, old(net.Abs()), netlist.dataBus, PortByte(ioports))
        else
          iodirs == old(iodirs) && net.Abs() == old(net.Abs())
    {
      var address := ReadAddressBus();
      if address == 0 {
        if net.GetNode(netlist.rw) {
          iodirs := ByteToPort(ReadDataBus());
        } else {
          WriteDataBus(PortByte(iodirs));
        }
      } else if address == 1 {
        WriteDataBus(PortByte(ioports));
      }
    }
  }

  /** What pin_write leaves in ioports for port pin i. */
  function PortWrite(dirs: bv8, ports: bv8, i: nat, value: bool): (r: bv8)
    requires i < 8
    ensures PortBit(dirs, i) ==> r == ports
    ensures !PortBit(dirs, i) ==> PortBit(r, i) == value
    ensures forall j :: 0 <= j < 8 && j != i ==> PortBit(r, j) == PortBit(ports, j)
  {
    if dirs & PortMask(i) == 0 then SetPortBit(ports, i, value) else ports
  }

  /** What pin_read reports for port pin i. */
  function PortRead(dirs: bv8, ports: bv8, i: nat): (r: bool)
    requires i < 8
    ensures r <==> PortBit(dirs, i) && PortBit(ports, i)
  {
    if dirs & PortMask(i) != 0 then ports & PortMask(i) != 0 else false
  }

  /** Nothing written to a port pin from outside is ever read back through a port pin: a
      write to pin i changes bit i only while pin_read of pin i reports false whatever the
      bit, and leaves the other bits alone, so every port pin reads as before. */
  lemma PortWriteUnobservable(dirs: bv8, ports: bv8, i: nat, value: bool, j: nat)
    requires i < 8 && j < 8
    ensures PortRead(dirs, PortWrite(dirs, ports, i, value), j) == PortRead(dirs, ports, j)
  {
  }

  /** Once the direction bit is clear the pin writes straight into ioports: writing a level
      then writing it back restores the register. */
  lemma PortWriteRestores(dirs: bv8, ports: bv8, i: nat, value: bool)
    requires i < 8 && !PortBit(dirs, i)
    ensures PortWrite(dirs, PortWrite(dirs, ports, i, value), i, PortBit(ports, i)) == ports
  {
    var w := PortWrite(dirs, ports, i, value);
    var r := PortWrite(dirs, w, i, PortBit(ports, i));
    forall j | 0 <= j < 8
      ensures PortBit(r, j) == PortBit(ports, j)
    {
    }
    SameBits(r, ports);
  }

  /** A port register is determined by its eight bits. */
  lemma SameBits(a: bv8, b: bv8)
    requires forall j :: 0 <= j < 8 ==> PortBit(a, j) == PortBit(b, j)
    ensures a == b
  {
    assert PortBit(a, 0) == PortBit(b, 0) && PortBit(a, 1) == PortBit(b, 1);
    assert PortBit(a, 2) == PortBit(b, 2) && PortBit(a, 3) == PortBit(b, 3);
    assert PortBit(a, 4) == PortBit(b, 4) && PortBit(a, 5) == PortBit(b, 5);
    assert PortBit(a, 6) == PortBit(b, 6) && PortBit(a, 7) == PortBit(b, 7);
  }
}
