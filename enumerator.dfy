/**
 * The enumerator of `main.c`: a sweep over every (bus, device, function)
 * coordinate that reads the identity register, and for each present
 * function emits a general block, then either the bridge block (bus numbers
 * and memory window) or the base I/O register block, then a blank line.
 *
 * Port I/O is abstracted: `read` maps a configuration address to the word
 * the data port returns for it.  Every routine returns the addresses it
 * read, in order (`trace`), and the report items it emitted, in order
 * (`items`).
 */
module Enumerator {
  import opened Wrappers
  import opened PciConfig
  import opened Identity

  const NumberOfBuses: bv32 := 256
  const NumberOfDevices: bv32 := 32
  const NumberOfFuncs: bv32 := 8

  // The C loop counters are `int`s that stay in these ranges.
  type BusIndex = b: bv32 | b < 256
  type DeviceIndex = d: bv32 | d < 32
  type FuncIndex = f: bv32 | f < 8
  type RegisterIndex = r: bv32 | r < 64

  const IdRegister: RegisterIndex := 0
  const HeaderRegister: RegisterIndex := 3
  const FirstBaseIoRegister: RegisterIndex := 5
  const BusNumberRegister: RegisterIndex := 6
  const MemoryRegister: RegisterIndex := 8
  const LastBaseIoRegister: RegisterIndex := 10

  datatype Coord = Coord(bus: BusIndex, device: DeviceIndex, func: FuncIndex)

  /** The configuration address of register `reg` of the function at `c`. */
  function RegisterAddress(c: Coord, reg: RegisterIndex): bv32
  {
    ConfigAddress(c.bus, c.device, c.func, reg)
  }

  /** Distinct registers of distinct functions never share an address. */
  lemma RegisterAddressInjective(c: Coord, reg: RegisterIndex, c': Coord, reg': RegisterIndex)
    ensures RegisterAddress(c, reg) == RegisterAddress(c', reg') <==> c == c' && reg == reg'
  {
    if RegisterAddress(c, reg) == RegisterAddress(c', reg') {
      AddressInjective(c.bus, c.device, c.func, reg, c'.bus, c'.device, c'.func, reg');
    }
  }

  // ---------------------------------------------------------------------
  // Report items

  /** A register that reads as zero is reported as "unused register", not decoded. */
  datatype Field<T> = Unused | Value(value: T)

  /** One item per group of output the C code prints. */
  datatype ReportItem =
    | General(coord: Coord, vendorId: bv32, deviceId: bv32, vendorName: Option<string>, deviceName: Option<string>)
    | BaseIoHeader
    | BaseIoEntry(offset: RegisterIndex, register: Field<bv32>)
    | BusNumbersLine(busNumbers: Field<BusNumbers>)
    | MemoryWindowLine(window: Field<MemoryWindow>)
    | Separator

  /** Addresses read and items emitted, each in order. */
  datatype Probe = Probe(trace: seq<bv32>, items: seq<ReportItem>)

  function Then(p: Probe, q: Probe): Probe
  {
    Probe(p.trace + q.trace, p.items + q.items)
  }

  // ---------------------------------------------------------------------
  // Specification of each routine

  /** What `printGeneral` reports for an identity word. */
  function GeneralReport(vendors: seq<VendorEntry>, devices: seq<DeviceEntry>, c: Coord, idWord: bv32): ReportItem
  {
    var vendorId := VendorId(idWord);
    var deviceId := DeviceId(idWord);
    General(c, vendorId, deviceId, VendorName(vendors, vendorId), DeviceName(devices, deviceId, vendorId))
  }

  /** One entry of the base I/O block: the raw word, or unused when it is zero. */
  function BaseIoReport(offset: RegisterIndex, w: bv32): (item: ReportItem)
    ensures item.BaseIoEntry? && item.offset == offset
    ensures item.register.Unused? <==> w == 0
    ensures item.register.Value? ==> item.register.value == w
  {
    BaseIoEntry(offset, if w != 0 then Value(w) else Unused)
  }

  /** The bus-number line of a bridge: bytes 0, 1 and 2, or unused when the register is zero. */
  function BusNumbersReport(w: bv32): (item: ReportItem)
    ensures item.BusNumbersLine? && (item.busNumbers.Unused? <==> w == 0)
    ensures item.busNumbers.Value? ==>
      item.busNumbers.value.primary == w & 0xFF && item.busNumbers.value.secondary == (w >> 8) & 0xFF
      && item.busNumbers.value.subordinate == (w >> 16) & 0xFF
  {
    BusNumbersLine(if w != 0 then Value(DecodeBusNumbers(w)) else Unused)
  }

  /** The memory line of a bridge: low half base, high half limit, or unused when the register is zero. */
  function MemoryWindowReport(w: bv32): (item: ReportItem)
    ensures item.MemoryWindowLine? && (item.window.Unused? <==> w == 0)
    ensures item.window.Value? ==> item.window.value.base == w & 0xFFFF && item.window.value.limit == w >> 16
  {
    MemoryWindowLine(if w != 0 then Value(DecodeMemoryWindow(w)) else Unused)
  }

  /** `printBaseIOReg` once the offsets below `upTo` are done. */
  function BaseIoRun(read: bv32 -> bv32, c: Coord, upTo: RegisterIndex): Probe
    requires FirstBaseIoRegister <= upTo <= LastBaseIoRegister + 1
    decreases upTo
  {
    if upTo == FirstBaseIoRegister then Probe([], [BaseIoHeader])
    else
      var p := BaseIoRun(read, c, upTo - 1);
      var address := RegisterAddress(c, upTo - 1);
      Probe(p.trace + [address], p.items + [BaseIoReport(upTo - 1, read(address))])
  }

  /** `printBusNumber`. */
  function BusNumbersProbe(read: bv32 -> bv32, c: Coord): Probe
  {
    var address := RegisterAddress(c, BusNumberRegister);
    Probe([address], [BusNumbersReport(read(address))])
  }

  /** `printMemBaseLim`. */
  function MemoryWindowProbe(read: bv32 -> bv32, c: Coord): Probe
  {
    var address := RegisterAddress(c, MemoryRegister);
    Probe([address], [MemoryWindowReport(read(address))])
  }

  /** The body of the innermost loop of `iterateTThrough`, for one coordinate. */
  function ProbeCoord(read: bv32 -> bv32, vendors: seq<VendorEntry>, devices: seq<DeviceEntry>, c: Coord): Probe
  {
    var idAddress := RegisterAddress(c, IdRegister);
    var idWord := read(idAddress);
    if !IsPresent(idWord) then Probe([idAddress], [])
    else
      var headerAddress := RegisterAddress(c, HeaderRegister);
      var body :=
        if IsBridgeHeader(read(headerAddress)) then Then(BusNumbersProbe(read, c), MemoryWindowProbe(read, c))
        else BaseIoRun(read, c, LastBaseIoRegister + 1);
      Probe([idAddress, headerAddress] + body.trace, [GeneralReport(vendors, devices, c, idWord)] + body.items + [Separator])
  }

  /** Probing the coordinates in order, concatenating what each probe reads and emits. */
  function Sweep(read: bv32 -> bv32, vendors: seq<VendorEntry>, devices: seq<DeviceEntry>, coords: seq<Coord>): Probe
  {
    if coords == [] then Probe([], [])
    else Then(Sweep(read, vendors, devices, coords[..|coords| - 1]), ProbeCoord(read, vendors, devices, coords[|coords| - 1]))
  }

  // ---------------------------------------------------------------------
  // The coordinates in the order the three nested loops visit them

  /** Functions 0 .. n-1 of one device. */
  function FuncsUpTo(bus: BusIndex, device: DeviceIndex, n: bv32): seq<Coord>
    requires n <= NumberOfFuncs
  {
    if n == 0 then [] else FuncsUpTo(bus, device, n - 1) + [Coord(bus, device, n - 1)]
  }

  /** Devices 0 .. n-1 of one bus, each with all its functions. */
  function DevicesUpTo(bus: BusIndex, n: bv32): seq<Coord>
    requires n <= NumberOfDevices
  {
    if n == 0 then [] else DevicesUpTo(bus, n - 1) + FuncsUpTo(bus, n - 1, NumberOfFuncs)
  }

  /** Buses 0 .. n-1, each with all its devices. */
  function BusesUpTo(n: bv32): seq<Coord>
    requires n <= NumberOfBuses
  {
    if n == 0 then [] else BusesUpTo(n - 1) + DevicesUpTo(n - 1, NumberOfDevices)
  }

  /** The coordinates `iterateTThrough` visits, in the order it visits them. */
  function AllCoordinates(): seq<Coord>
  {
    BusesUpTo(NumberOfBuses)
  }

  // ---------------------------------------------------------------------
  // The routines of main.c

  /** `printGeneral`: decode both identifiers and resolve both names. */
  method PrintGeneral(vendors: seq<VendorEntry>, devices: seq<DeviceEntry>, c: Coord, idWord: bv32)
    returns (item: ReportItem)
    ensures item == GeneralReport(vendors, devices, c, idWord)
  {
    var vendorId := VendorId(idWord);
    var deviceId := DeviceId(idWord);
    var vendorName := FindVendorName(vendors, vendorId);
    var deviceName := FindDeviceName(devices, deviceId, vendorId);
    item := General(c, vendorId, deviceId, vendorName, deviceName);
  }

  /** `funcIsBridge`: reads the header register of the same coordinate and tests bit 16. */
  method FuncIsBridge(read: bv32 -> bv32, c: Coord) returns (bridge: bool, address: bv32)
    ensures address == RegisterAddress(c, HeaderRegister)
    ensures bridge <==> read(address) & 0x1_0000 != 0
  {
    address := RegisterAddress(c, HeaderRegister);
    var reg := read(address);
    var header := HeaderType(reg);
    bridge := header & 1 == 1;
  }

  /** `printBaseIOReg`: registers 5 to 10, in increasing order. */
  method PrintBaseIoRegisters(read: bv32 -> bv32, c: Coord) returns (trace: seq<bv32>, items: seq<ReportItem>)
    ensures Probe(trace, items) == BaseIoRun(read, c, LastBaseIoRegister + 1)
  {
    trace, items := [], [BaseIoHeader];
    var offset: RegisterIndex := FirstBaseIoRegister;
    while offset < LastBaseIoRegister + 1
      invariant FirstBaseIoRegister <= offset <= LastBaseIoRegister + 1
      invariant Probe(trace, items) == BaseIoRun(read, c, offset)
    {
      var address := RegisterAddress(c, offset);
      var ioReg := read(address);
      trace := trace + [address];
      if ioReg != 0 {
        items := items + [BaseIoEntry(offset, Value(ioReg))];
      } else {
        items := items + [BaseIoEntry(offset, Unused)];
      }
      offset := offset + 1;
    }
  }

  /** `printBusNumber`. */
  method PrintBusNumbers(read: bv32 -> bv32, c: Coord) returns (trace: seq<bv32>, items: seq<ReportItem>)
    ensures Probe(trace, items) == BusNumbersProbe(read, c)
  {
    var address := RegisterAddress(c, BusNumberRegister);
    var busNumReg := read(address);
    trace := [address];
    if busNumReg != 0 {
      var primary := busNumReg & 0xFF;
      var secondary := (busNumReg >> 8) & 0xFF;
      var subordinate := (busNumReg >> 16) & 0xFF;
      items := [BusNumbersLine(Value(BusNumbers(primary, secondary, subordinate)))];
    } else {
      items := [BusNumbersLine(Unused)];
    }
  }

  /** `printMemBaseLim`. */
  method PrintMemBaseLimit(read: bv32 -> bv32, c: Coord) returns (trace: seq<bv32>, items: seq<ReportItem>)
    ensures Probe(trace, items) == MemoryWindowProbe(read, c)
  {
    var address := RegisterAddress(c, MemoryRegister);
    var memBLReg := read(address);
    trace := [address];
    if memBLReg != 0 {
      var base := memBLReg & 0xFFFF;
      var limit := (memBLReg >> 16) & 0xFFFF;
      items := [MemoryWindowLine(Value(MemoryWindow(base, limit)))];
    } else {
      items := [MemoryWindowLine(Unused)];
    }
  }

  /** The body of the innermost loop of `iterateTThrough`. */
  method ProbeFunction(read: bv32 -> bv32, vendors: seq<VendorEntry>, devices: seq<DeviceEntry>, c: Coord)
    returns (trace: seq<bv32>, items: seq<ReportItem>)
    ensures Probe(trace, items) == ProbeCoord(read, vendors, devices, c)
  {
    var idAddress := RegisterAddress(c, IdRegister);
    var idWord := read(idAddress);
    trace, items := [idAddress], [];
    if IsPresent(idWord) {
      var general := PrintGeneral(vendors, devices, c, idWord);
      var bridge, headerAddress := FuncIsBridge(read, c);
      var bodyTrace, bodyItems;
      if bridge {
        var busTrace, busItems := PrintBusNumbers(read, c);
        var memTrace, memItems := PrintMemBaseLimit(read, c);
        bodyTrace, bodyItems := busTrace + memTrace, busItems + memItems;
      } else {
        bodyTrace, bodyItems := PrintBaseIoRegisters(read, c);
      }
      assert bridge == IsBridgeHeader(read(headerAddress));
      trace := [idAddress, headerAddress] + bodyTrace;
      items := [general] + bodyItems + [Separator];
    }
  }

  /** `iterateTThrough`: the triple-nested sweep, no coordinate skipped. */
  method Enumerate(read: bv32 -> bv32, vendors: seq<VendorEntry>, devices: seq<DeviceEntry>)
    returns (trace: seq<bv32>, items: seq<ReportItem>)
    ensures Probe(trace, items) == Sweep(read, vendors, devices, AllCoordinates())
  {
    trace, items := [], [];
    var bus: bv32 := 0;
    while bus < NumberOfBuses
      invariant bus <= NumberOfBuses
      invariant Probe(trace, items) == Sweep(read, vendors, devices, BusesUpTo(bus))
    {
      var device: bv32 := 0;
      VisitedStart(bus);
      while device < NumberOfDevices
        invariant device <= NumberOfDevices
        invariant Probe(trace, items) == Sweep(read, vendors, devices, Visited(bus, device, 0))
      {
        var func: bv32 := 0;
        while func < NumberOfFuncs
          invariant func <= NumberOfFuncs
          invariant Probe(trace, items) == Sweep(read, vendors, devices, Visited(bus, device, func))
        {
          var c := Coord(bus, device, func);
          var funcTrace, funcItems := ProbeFunction(read, vendors, devices, c);
          VisitedFuncStep(read, vendors, devices, bus, device, func);
          trace, items := trace + funcTrace, items + funcItems;
          func := func + 1;
        }
        VisitedDeviceStep(bus, device);
        device := device + 1;
      }
      VisitedBusStep(bus);
      bus := bus + 1;
    }
  }

  /** The coordinates visited before (bus, device, func). */
  function Visited(bus: BusIndex, device: bv32, func: bv32): seq<Coord>
    requires device <= NumberOfDevices && func <= NumberOfFuncs
    requires device == NumberOfDevices ==> func == 0
  {
    BusesUpTo(bus) + DevicesUpTo(bus, device) + (if device < NumberOfDevices then FuncsUpTo(bus, device, func) else [])
  }

  lemma VisitedStart(bus: BusIndex)
    ensures Visited(bus, 0, 0) == BusesUpTo(bus)
  {
  }

  lemma VisitedFuncStep(read: bv32 -> bv32, vendors: seq<VendorEntry>, devices: seq<DeviceEntry>,
                        bus: BusIndex, device: DeviceIndex, func: FuncIndex)
    ensures Sweep(read, vendors, devices, Visited(bus, device, func + 1))
         == Then(Sweep(read, vendors, devices, Visited(bus, device, func)), ProbeCoord(read, vendors, devices, Coord(bus, device, func)))
  {
    VisitedSnoc(bus, device, func);
    SweepSnoc(read, vendors, devices, Visited(bus, device, func), Coord(bus, device, func));
  }

  lemma VisitedSnoc(bus: BusIndex, device: DeviceIndex, func: FuncIndex)
    ensures Visited(bus, device, func) + [Coord(bus, device, func)] == Visited(bus, device, func + 1)
  {
    assert FuncsUpTo(bus, device, func + 1) == FuncsUpTo(bus, device, func) + [Coord(bus, device, func)];
  }

  lemma VisitedDeviceStep(bus: BusIndex, device: DeviceIndex)
    ensures Visited(bus, device, NumberOfFuncs) == Visited(bus, device + 1, 0)
  {
  }

  lemma VisitedBusStep(bus: BusIndex)
    ensures Visited(bus, NumberOfDevices, 0) == BusesUpTo(bus + 1)
  {
  }

  // ---------------------------------------------------------------------
  // Properties of the sweep

  /** Appending one coordinate appends its probe. */
  lemma SweepSnoc(read: bv32 -> bv32, vendors: seq<VendorEntry>, devices: seq<DeviceEntry>, coords: seq<Coord>, c: Coord)
    ensures Sweep(read, vendors, devices, coords + [c]) == Then(Sweep(read, vendors, devices, coords), ProbeCoord(read, vendors, devices, c))
  {
    assert (coords + [c])[..|coords|] == coords;
  }

  lemma ThenAssociative(p: Probe, q: Probe, r: Probe)
    ensures Then(Then(p, q), r) == Then(p, Then(q, r))
  {
    assert (p.trace + q.trace) + r.trace == p.trace + (q.trace + r.trace);
    assert (p.items + q.items) + r.items == p.items + (q.items + r.items);
  }

  /** Splitting the coordinates splits what the sweep reads and emits. */
  lemma {:induction false} SweepAppend(read: bv32 -> bv32, vendors: seq<VendorEntry>, devices: seq<DeviceEntry>,
                                       s: seq<Coord>, t: seq<Coord>)
    ensures Sweep(read, vendors, devices, s + t) == Then(Sweep(read, vendors, devices, s), Sweep(read, vendors, devices, t))
    decreases |t|
  {
    if t == [] {
      assert s + t == s;
    } else {
      var t' := t[..|t| - 1];
      var c := t[|t| - 1];
      assert t == t' + [c];
      assert s + t == (s + t') + [c];
      var probe := ProbeCoord(read, vendors, devices, c);
      calc {
        Sweep(read, vendors, devices, s + t);
        { SweepSnoc(read, vendors, devices, s + t', c); }
        Then(Sweep(read, vendors, devices, s + t'), probe);
        { SweepAppend(read, vendors, devices, s, t'); }
        Then(Then(Sweep(read, vendors, devices, s), Sweep(read, vendors, devices, t')), probe);
        { ThenAssociative(Sweep(read, vendors, devices, s), Sweep(read, vendors, devices, t'), probe); }
        Then(Sweep(read, vendors, devices, s), Then(Sweep(read, vendors, devices, t'), probe));
        { SweepSnoc(read, vendors, devices, t', c); }
        Then(Sweep(read, vendors, devices, s), Sweep(read, vendors, devices, t));
      }
    }
  }

  // ---------------------------------------------------------------------
  // One coordinate: which registers are read, and what is reported

  /** Whether the identity register of `c` answers. */
  predicate Responds(read: bv32 -> bv32, c: Coord)
  {
    IsPresent(read(RegisterAddress(c, IdRegister)))
  }

  /** Whether the header register of `c` marks a bridge. */
  predicate BridgeAt(read: bv32 -> bv32, c: Coord)
  {
    IsBridgeHeader(read(RegisterAddress(c, HeaderRegister)))
  }

  /** The register indices read for one coordinate, in order. */
  function RegistersRead(read: bv32 -> bv32, c: Coord): seq<RegisterIndex>
  {
    if !Responds(read, c) then [IdRegister]
    else if BridgeAt(read, c) then [IdRegister, HeaderRegister, BusNumberRegister, MemoryRegister]
    else [IdRegister, HeaderRegister, 5, 6, 7, 8, 9, 10]
  }

  /** The addresses of a list of registers of `c`. */
  function Addresses(c: Coord, regs: seq<RegisterIndex>): (a: seq<bv32>)
    ensures |a| == |regs| && forall i :: 0 <= i < |regs| ==> a[i] == RegisterAddress(c, regs[i])
  {
    if regs == [] then [] else [RegisterAddress(c, regs[0])] + Addresses(c, regs[1..])
  }

  /** The six entries of the base I/O block. */
  function BaseIoEntries(read: bv32 -> bv32, c: Coord): seq<ReportItem>
  {
    [BaseIoReport(5, read(RegisterAddress(c, 5))), BaseIoReport(6, read(RegisterAddress(c, 6))),
     BaseIoReport(7, read(RegisterAddress(c, 7))), BaseIoReport(8, read(RegisterAddress(c, 8))),
     BaseIoReport(9, read(RegisterAddress(c, 9))), BaseIoReport(10, read(RegisterAddress(c, 10)))]
  }

  lemma BaseIoTraceStep(read: bv32 -> bv32, c: Coord, upTo: RegisterIndex, a: seq<bv32>)
    requires FirstBaseIoRegister < upTo <= LastBaseIoRegister + 1
    requires |a| == 6 && a[upTo - 6] == RegisterAddress(c, upTo - 1)
    requires BaseIoRun(read, c, upTo - 1).trace == a[..upTo - 6]
    ensures BaseIoRun(read, c, upTo).trace == a[..upTo - 5]
  {
    assert a[..upTo - 5] == a[..upTo - 6] + [a[upTo - 6]];
  }

  /** `printBaseIOReg` reads registers 5..10 in increasing order ... */
  lemma BaseIoRunTrace(read: bv32 -> bv32, c: Coord)
    ensures BaseIoRun(read, c, LastBaseIoRegister + 1).trace == Addresses(c, [5, 6, 7, 8, 9, 10])
  {
    var a := Addresses(c, [5, 6, 7, 8, 9, 10]);
    BaseIoTraceStep(read, c, 6, a);
    BaseIoTraceStep(read, c, 7, a);
    BaseIoTraceStep(read, c, 8, a);
    BaseIoTraceStep(read, c, 9, a);
    BaseIoTraceStep(read, c, 10, a);
    BaseIoTraceStep(read, c, 11, a);
    assert a[..6] == a;
  }

  lemma BaseIoItemsStep(read: bv32 -> bv32, c: Coord, upTo: RegisterIndex)
    requires FirstBaseIoRegister < upTo <= LastBaseIoRegister + 1
    ensures BaseIoRun(read, c, upTo).items
         == BaseIoRun(read, c, upTo - 1).items + [BaseIoReport(upTo - 1, read(RegisterAddress(c, upTo - 1)))]
  {
  }

  /** ... and reports each of them, after the header. */
  lemma BaseIoRunItems(read: bv32 -> bv32, c: Coord)
    ensures BaseIoRun(read, c, LastBaseIoRegister + 1).items == [BaseIoHeader] + BaseIoEntries(read, c)
  {
    BaseIoItemsStep(read, c, 6);
    BaseIoItemsStep(read, c, 7);
    BaseIoItemsStep(read, c, 8);
    BaseIoItemsStep(read, c, 9);
    BaseIoItemsStep(read, c, 10);
    BaseIoItemsStep(read, c, 11);
  }

  /**
   * The registers each coordinate reads: the identity register alone when
   * the function is absent; then the header register; then registers 6 and 8
   * for a bridge, or 5 to 10 otherwise.
   */
  lemma ProbeRegisters(read: bv32 -> bv32, vendors: seq<VendorEntry>, devices: seq<DeviceEntry>, c: Coord)
    ensures ProbeCoord(read, vendors, devices, c).trace == Addresses(c, RegistersRead(read, c))
  {
    if Responds(read, c) && !BridgeAt(read, c) {
      BaseIoRunTrace(read, c);
    }
  }

  /**
   * What one coordinate reports: nothing when absent; otherwise the general
   * block, exactly one of the bridge block and the base I/O block, and the
   * separating blank line.
   */
  lemma ProbeItems(read: bv32 -> bv32, vendors: seq<VendorEntry>, devices: seq<DeviceEntry>, c: Coord)
    ensures var items := ProbeCoord(read, vendors, devices, c).items;
      var general := GeneralReport(vendors, devices, c, read(RegisterAddress(c, IdRegister)));
      && (!Responds(read, c) ==> items == [])
      && (Responds(read, c) && BridgeAt(read, c) ==>
            items == [general, BusNumbersReport(read(RegisterAddress(c, BusNumberRegister))),
                      MemoryWindowReport(read(RegisterAddress(c, MemoryRegister))), Separator])
      && (Responds(read, c) && !BridgeAt(read, c) ==>
            items == [general, BaseIoHeader] + BaseIoEntries(read, c) + [Separator])
  {
    if Responds(read, c) && !BridgeAt(read, c) {
      BaseIoRunItems(read, c);
    }
  }

  /** A present function's report opens with its general block, closes with one separator, and has no other. */
  lemma ProbeBlock(read: bv32 -> bv32, vendors: seq<VendorEntry>, devices: seq<DeviceEntry>, c: Coord)
    requires Responds(read, c)
    ensures var items := ProbeCoord(read, vendors, devices, c).items;
      && |items| >= 3
      && items[0] == GeneralReport(vendors, devices, c, read(RegisterAddress(c, IdRegister)))
      && (forall i :: 0 <= i < |items| ==> (items[i].General? <==> i == 0))
      && (forall i :: 0 <= i < |items| ==> (items[i].Separator? <==> i == |items| - 1))
      && ((exists i :: 0 <= i < |items| && items[i].BusNumbersLine?) <==> BridgeAt(read, c))
      && ((exists i :: 0 <= i < |items| && items[i].BaseIoEntry?) <==> !BridgeAt(read, c))
  {
    ProbeItems(read, vendors, devices, c);
    var items := ProbeCoord(read, vendors, devices, c).items;
    if BridgeAt(read, c) {
      assert items[1].BusNumbersLine?;
    } else {
      assert items[2].BaseIoEntry?;
    }
  }

  /**
   * The item just before the separator closes the block's last line: the
   * memory window of a bridge, or the entry of register 10 otherwise.
   */
  lemma ProbeClosingItem(read: bv32 -> bv32, vendors: seq<VendorEntry>, devices: seq<DeviceEntry>, c: Coord)
    requires Responds(read, c)
    ensures var items := ProbeCoord(read, vendors, devices, c).items;
      && |items| >= 2
      && items[|items| - 1] == Separator
      && (BridgeAt(read, c) ==> items[|items| - 2] == MemoryWindowReport(read(RegisterAddress(c, MemoryRegister))))
      && (!BridgeAt(read, c) ==>
            items[|items| - 2] == BaseIoReport(LastBaseIoRegister, read(RegisterAddress(c, LastBaseIoRegister))))
  {
    ProbeItems(read, vendors, devices, c);
  }

  // ---------------------------------------------------------------------
  // The whole sweep: when it is silent, and how many blocks it prints

  /** The sweep prints nothing exactly when no coordinate responds. */
  lemma {:induction false} SweepSilentIff(read: bv32 -> bv32, vendors: seq<VendorEntry>, devices: seq<DeviceEntry>,
                                          coords: seq<Coord>)
    ensures Sweep(read, vendors, devices, coords).items == [] <==> forall i :: 0 <= i < |coords| ==> !Responds(read, coords[i])
    decreases |coords|
  {
    if coords != [] {
      var prefix := coords[..|coords| - 1];
      var c := coords[|coords| - 1];
      SweepSilentIff(read, vendors, devices, prefix);
      ProbeItems(read, vendors, devices, c);
      assert forall i :: 0 <= i < |prefix| ==> prefix[i] == coords[i];
    }
  }

  /** The identity-register address of each coordinate, in order. */
  function IdAddresses(coords: seq<Coord>): (a: seq<bv32>)
    ensures |a| == |coords| && forall i :: 0 <= i < |coords| ==> a[i] == RegisterAddress(coords[i], IdRegister)
  {
    if coords == [] then [] else IdAddresses(coords[..|coords| - 1]) + [RegisterAddress(coords[|coords| - 1], IdRegister)]
  }

  /** When no coordinate responds, the sweep reads each identity register once, in order, and nothing else. */
  lemma {:induction false} SilentSweepTrace(read: bv32 -> bv32, vendors: seq<VendorEntry>, devices: seq<DeviceEntry>,
                                            coords: seq<Coord>)
    requires forall i :: 0 <= i < |coords| ==> !Responds(read, coords[i])
    ensures Sweep(read, vendors, devices, coords).trace == IdAddresses(coords)
    decreases |coords|
  {
    if coords != [] {
      var prefix := coords[..|coords| - 1];
      assert forall i :: 0 <= i < |prefix| ==> prefix[i] == coords[i];
      SilentSweepTrace(read, vendors, devices, prefix);
    }
  }

  /** A reader that answers all ones everywhere yields an empty report, after one read per coordinate. */
  lemma AbsentEverywhereSilent(read: bv32 -> bv32, vendors: seq<VendorEntry>, devices: seq<DeviceEntry>)
    requires forall a :: read(a) == AbsentWord
    ensures Sweep(read, vendors, devices, AllCoordinates()).items == []
    ensures Sweep(read, vendors, devices, AllCoordinates()).trace == IdAddresses(AllCoordinates())
  {
    SweepSilentIff(read, vendors, devices, AllCoordinates());
    SilentSweepTrace(read, vendors, devices, AllCoordinates());
  }

  /** The number of blank separator lines in a report. */
  function Blocks(items: seq<ReportItem>): nat
  {
    if items == [] then 0 else Blocks(items[..|items| - 1]) + (if items[|items| - 1].Separator? then 1 else 0)
  }

  /** The number of coordinates that respond. */
  function Responding(read: bv32 -> bv32, coords: seq<Coord>): nat
  {
    if coords == [] then 0 else Responding(read, coords[..|coords| - 1]) + (if Responds(read, coords[|coords| - 1]) then 1 else 0)
  }

  lemma {:induction false} BlocksAppend(s: seq<ReportItem>, t: seq<ReportItem>)
    ensures Blocks(s + t) == Blocks(s) + Blocks(t)
    decreases |t|
  {
    if t == [] {
      assert s + t == s;
    } else {
      assert (s + t)[..|s + t| - 1] == s + t[..|t| - 1];
      BlocksAppend(s, t[..|t| - 1]);
    }
  }

  lemma {:induction false} BlocksOfProbe(read: bv32 -> bv32, vendors: seq<VendorEntry>, devices: seq<DeviceEntry>, c: Coord)
    ensures Blocks(ProbeCoord(read, vendors, devices, c).items) == if Responds(read, c) then 1 else 0
  {
    ProbeItems(read, vendors, devices, c);
    var items := ProbeCoord(read, vendors, devices, c).items;
    if Responds(read, c) {
      var general := GeneralReport(vendors, devices, c, read(RegisterAddress(c, IdRegister)));
      var body := items[1..|items| - 1];
      assert items == [general] + body + [Separator];
      assert forall i :: 0 <= i < |body| ==> !body[i].Separator?;
      BlocksNone([general] + body);
      BlocksAppend([general] + body, [Separator]);
      assert Blocks([Separator]) == Blocks([]) + 1;
    }
  }

  lemma {:induction false} BlocksNone(items: seq<ReportItem>)
    requires forall i :: 0 <= i < |items| ==> !items[i].Separator?
    ensures Blocks(items) == 0
    decreases |items|
  {
    if items != [] {
      BlocksNone(items[..|items| - 1]);
    }
  }

  /** The sweep prints one block, closed by a blank line, per responding coordinate. */
  lemma {:induction false} SweepBlocks(read: bv32 -> bv32, vendors: seq<VendorEntry>, devices: seq<DeviceEntry>,
                                       coords: seq<Coord>)
    ensures Blocks(Sweep(read, vendors, devices, coords).items) == Responding(read, coords)
    decreases |coords|
  {
    if coords != [] {
      var prefix := coords[..|coords| - 1];
      var c := coords[|coords| - 1];
      SweepBlocks(read, vendors, devices, prefix);
      BlocksAppend(Sweep(read, vendors, devices, prefix).items, ProbeCoord(read, vendors, devices, c).items);
      BlocksOfProbe(read, vendors, devices, c);
    }
  }

  // ---------------------------------------------------------------------
  // Visiting order

  /** Lexicographic order on (bus, device, function). */
  predicate Precedes(a: Coord, b: Coord)
  {
    a.bus < b.bus || (a.bus == b.bus && (a.device < b.device || (a.device == b.device && a.func < b.func)))
  }

  predicate StrictlyOrdered(s: seq<Coord>)
  {
    forall i, j :: 0 <= i < j < |s| ==> Precedes(s[i], s[j])
  }

  lemma OrderedConcat(s: seq<Coord>, t: seq<Coord>)
    requires StrictlyOrdered(s) && StrictlyOrdered(t)
    requires forall x, y :: x in s && y in t ==> Precedes(x, y)
    ensures StrictlyOrdered(s + t)
  {
    forall i, j | 0 <= i < j < |s + t| ensures Precedes((s + t)[i], (s + t)[j]) {
      if j < |s| {
        assert (s + t)[i] == s[i] && (s + t)[j] == s[j];
      } else if i >= |s| {
        assert (s + t)[i] == t[i - |s|] && (s + t)[j] == t[j - |s|];
      } else {
        assert (s + t)[i] == s[i] && (s + t)[j] == t[j - |s|];
      }
    }
  }

  lemma {:induction false} FuncsOrder(bus: BusIndex, device: DeviceIndex, n: bv32)
    requires n <= NumberOfFuncs
    ensures forall c :: c in FuncsUpTo(bus, device, n) <==> c.bus == bus && c.device == device && c.func < n
    ensures StrictlyOrdered(FuncsUpTo(bus, device, n))
    decreases n
  {
    if n > 0 {
      FuncsOrder(bus, device, n - 1);
      OrderedConcat(FuncsUpTo(bus, device, n - 1), [Coord(bus, device, n - 1)]);
    }
  }

  lemma {:induction false} DevicesOrder(bus: BusIndex, n: bv32)
    requires n <= NumberOfDevices
    ensures forall c :: c in DevicesUpTo(bus, n) <==> c.bus == bus && c.device < n
    ensures StrictlyOrdered(DevicesUpTo(bus, n))
    decreases n
  {
    if n > 0 {
      DevicesOrder(bus, n - 1);
      FuncsOrder(bus, n - 1, NumberOfFuncs);
      OrderedConcat(DevicesUpTo(bus, n - 1), FuncsUpTo(bus, n - 1, NumberOfFuncs));
    }
  }

  lemma {:induction false} BusesMembers(n: bv32)
    requires n <= NumberOfBuses
    ensures forall c :: c in BusesUpTo(n) <==> c.bus < n
    decreases n
  {
    if n > 0 {
      BusesMembers(n - 1);
      DevicesOrder(n - 1, NumberOfDevices);
    }
  }

  lemma {:induction false} BusesOrder(n: bv32)
    requires n <= NumberOfBuses
    ensures forall c :: c in BusesUpTo(n) <==> c.bus < n
    ensures StrictlyOrdered(BusesUpTo(n))
    decreases n
  {
    BusesMembers(n);
    if n > 0 {
      BusesOrder(n - 1);
      DevicesOrder(n - 1, NumberOfDevices);
      OrderedConcat(BusesUpTo(n - 1), DevicesUpTo(n - 1, NumberOfDevices));
    }
  }

  /**
   * `iterateTThrough` visits every coordinate, bus-major, then device, then
   * function, each exactly once (a strictly increasing sequence has no repeats).
   */
  lemma AllCoordinatesOrder()
    ensures forall c: Coord :: c in AllCoordinates()
    ensures StrictlyOrdered(AllCoordinates())
  {
    BusesOrder(NumberOfBuses);
  }

  // ---------------------------------------------------------------------
  // A single responding function

  /** An absent function costs one read and prints nothing. */
  lemma SilentProbe(read: bv32 -> bv32, vendors: seq<VendorEntry>, devices: seq<DeviceEntry>, c: Coord)
    requires !Responds(read, c)
    ensures ProbeCoord(read, vendors, devices, c) == Probe([RegisterAddress(c, IdRegister)], [])
  {
  }

  /** When only the coordinate at index `k` may respond, the sweep prints exactly its report. */
  lemma {:induction false} SweepOneResponder(read: bv32 -> bv32, vendors: seq<VendorEntry>, devices: seq<DeviceEntry>,
                                             coords: seq<Coord>, k: nat)
    requires k < |coords|
    requires forall i :: 0 <= i < |coords| && i != k ==> !Responds(read, coords[i])
    ensures Sweep(read, vendors, devices, coords).items == ProbeCoord(read, vendors, devices, coords[k]).items
    decreases |coords|
  {
    var prefix := coords[..|coords| - 1];
    var c := coords[|coords| - 1];
    assert coords == prefix + [c];
    SweepSnoc(read, vendors, devices, prefix, c);
    if k == |coords| - 1 {
      assert forall i :: 0 <= i < |prefix| ==> !Responds(read, prefix[i]) by {
        forall i | 0 <= i < |prefix| ensures !Responds(read, prefix[i]) {
          assert prefix[i] == coords[i];
        }
      }
      SweepSilentIff(read, vendors, devices, prefix);
    } else {
      assert forall i :: 0 <= i < |prefix| && i != k ==> !Responds(read, prefix[i]) by {
        forall i | 0 <= i < |prefix| && i != k ensures !Responds(read, prefix[i]) {
          assert prefix[i] == coords[i];
        }
      }
      SweepOneResponder(read, vendors, devices, prefix, k);
      assert prefix[k] == coords[k];
      SilentProbe(read, vendors, devices, c);
    }
  }

  lemma IndexOf(coords: seq<Coord>, c: Coord) returns (k: nat)
    requires c in coords
    ensures k < |coords| && coords[k] == c
  {
    k :| 0 <= k < |coords| && coords[k] == c;
  }

  /** In a strictly ordered sequence, no other element equals the one at `k`. */
  lemma OrderedDistinct(coords: seq<Coord>, k: nat)
    requires StrictlyOrdered(coords) && k < |coords|
    ensures forall i :: 0 <= i < |coords| && i != k ==> coords[i] != coords[k]
  {
    forall i | 0 <= i < |coords| && i != k
      ensures coords[i] != coords[k]
    {
      if i < k {
        assert Precedes(coords[i], coords[k]);
      } else {
        assert Precedes(coords[k], coords[i]);
      }
    }
  }

  /**
   * A reader whose only answering identity register is at (0, 0, 0), with
   * identity word 0x12345678, yields exactly one report block: vendor 0x5678,
   * device 0x1234, and no name where the tables have no entry.
   */
  lemma SingleFunctionScenario(read: bv32 -> bv32, vendors: seq<VendorEntry>, devices: seq<DeviceEntry>)
    requires read(RegisterAddress(Coord(0, 0, 0), IdRegister)) == 0x1234_5678
    requires forall c: Coord :: c != Coord(0, 0, 0) ==> read(RegisterAddress(c, IdRegister)) == AbsentWord
    ensures var items := Sweep(read, vendors, devices, AllCoordinates()).items;
      && |items| >= 3
      && items[0] == General(Coord(0, 0, 0), 0x5678, 0x1234, VendorName(vendors, 0x5678), DeviceName(devices, 0x1234, 0x5678))
      && (forall i :: 0 <= i < |items| ==> (items[i].General? <==> i == 0))
      && (forall i :: 0 <= i < |items| ==> (items[i].Separator? <==> i == |items| - 1))
      && ((forall i :: 0 <= i < |vendors| ==> vendors[i].vendorId != 0x5678) ==> items[0].vendorName == None)
      && ((forall i :: 0 <= i < |devices| ==> devices[i].deviceId != 0x1234) ==> items[0].deviceName == None)
  {
    var c0 := Coord(0, 0, 0);
    var coords := AllCoordinates();
    AllCoordinatesOrder();
    assert c0 in coords;
    var k := IndexOf(coords, c0);
    OrderedDistinct(coords, k);
    SweepOneResponder(read, vendors, devices, coords, k);
    ProbeBlock(read, vendors, devices, c0);
    VendorNameFirstMatch(vendors, 0x5678);
    DeviceNameFirstMatch(devices, 0x1234, 0x5678);
  }
}
