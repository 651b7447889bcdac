/**
 * PCI Configuration Mechanism #1 (PCI Local Bus Specification, revision 3.0,
 * section 3.2.2.3.2): the 32-bit configuration address written to port 0xCF8,
 * and the shift-and-mask decoders applied to the 32-bit words read from port
 * 0xCFC.  C `int` values are modelled by their 32-bit patterns.
 */
module PciConfig {

  /** Bit 31 of an address: the cycle targets configuration space. */
  const EnableBit: bv32 := 0x8000_0000

  /** The identity word of a function that does not exist (the C value -1). */
  const AbsentWord: bv32 := 0xFFFF_FFFF

  // ---------------------------------------------------------------------
  // Address encoder

  /**
   * `formConfigRegAddress`: enable bit, then bus at bit 16, device at bit 11,
   * function at bit 8 and register index at bit 2.  Like the C code it does
   * not check its arguments; out-of-range values spill into other fields.
   */
  function ConfigAddress(bus: bv32, device: bv32, func: bv32, reg: bv32): (a: bv32)
    ensures a & EnableBit == EnableBit
    ensures a & 3 == 0
  {
    EnableBit | (bus << 16) | (device << 11) | (func << 8) | (reg << 2)
  }

  /** The fields of a configuration address, read back from their bit positions. */
  datatype AddressFields = AddressFields(enabled: bool, bus: bv32, device: bv32, func: bv32, reg: bv32)

  function DecodeAddress(a: bv32): (f: AddressFields)
    ensures f.bus < 256 && f.device < 32 && f.func < 8 && f.reg < 64
  {
    AddressFields(a & EnableBit != 0, (a >> 16) & 0xFF, (a >> 11) & 0x1F, (a >> 8) & 0x7, (a >> 2) & 0x3F)
  }

  /** In range, every field of the address is recovered from its bit position. */
  lemma AddressRoundTrip(bus: bv32, device: bv32, func: bv32, reg: bv32)
    requires bus < 256 && device < 32 && func < 8 && reg < 64
    ensures DecodeAddress(ConfigAddress(bus, device, func, reg)) == AddressFields(true, bus, device, func, reg)
  {
  }

  /** Conversely, every enabled, word-aligned address with bits 30..24 clear is an encoding. */
  lemma AddressesAreEncodings(a: bv32)
    requires a & EnableBit != 0 && a & 0x7F00_0003 == 0
    ensures var f := DecodeAddress(a); ConfigAddress(f.bus, f.device, f.func, f.reg) == a
  {
  }

  /** In range, distinct coordinates give distinct addresses. */
  lemma AddressInjective(bus: bv32, device: bv32, func: bv32, reg: bv32,
                         bus': bv32, device': bv32, func': bv32, reg': bv32)
    requires bus < 256 && device < 32 && func < 8 && reg < 64
    requires bus' < 256 && device' < 32 && func' < 8 && reg' < 64
    requires ConfigAddress(bus, device, func, reg) == ConfigAddress(bus', device', func', reg')
    ensures bus == bus' && device == device' && func == func' && reg == reg'
  {
    AddressRoundTrip(bus, device, func, reg);
    AddressRoundTrip(bus', device', func', reg');
  }

  // ---------------------------------------------------------------------
  // Field decoders

  /** `extractVendorID`: the low half of the identity word. */
  function VendorId(w: bv32): (v: bv32)
    ensures v < 0x1_0000
  {
    w & 0xFFFF
  }

  /** `extractDeviceID`: the high half of the identity word. */
  function DeviceId(w: bv32): (d: bv32)
    ensures d < 0x1_0000
  {
    (w >> 16) & 0xFFFF
  }

  /** The two identifiers together are the whole identity word. */
  lemma IdentityRoundTrip(w: bv32)
    ensures VendorId(w) | (DeviceId(w) << 16) == w
  {
  }

  /** ... and they are exactly the identifiers the word was built from. */
  lemma IdentityOfWord(vendor: bv32, device: bv32)
    requires vendor < 0x1_0000 && device < 0x1_0000
    ensures VendorId(vendor | (device << 16)) == vendor
    ensures DeviceId(vendor | (device << 16)) == device
  {
  }

  /**
   * `funcIsOK`: the function exists unless the whole identity word is all
   * ones; a word whose vendor half alone is 0xFFFF still counts as present.
   */
  function IsPresent(idWord: bv32): (present: bool)
    ensures !present <==> VendorId(idWord) == 0xFFFF && DeviceId(idWord) == 0xFFFF
  {
    idWord != AbsentWord
  }

  /** The header-type byte of the header register (index 3). */
  function HeaderType(w: bv32): (h: bv32)
    ensures h < 0x100
  {
    (w >> 16) & 0xFF
  }

  /** The bridge test of `funcIsBridge`: bit 0 of the header-type byte, which is bit 16 of the word. */
  function IsBridgeHeader(w: bv32): (bridge: bool)
    ensures bridge <==> w & 0x1_0000 != 0
  {
    HeaderType(w) & 1 == 1
  }

  /** Bus numbers of a bridge (register index 6). */
  datatype BusNumbers = BusNumbers(primary: bv32, secondary: bv32, subordinate: bv32)

  /** Bytes 0, 1 and 2 of the bus-number register; byte 3 is not decoded. */
  function DecodeBusNumbers(w: bv32): (b: BusNumbers)
    ensures b.primary < 256 && b.secondary < 256 && b.subordinate < 256
    ensures b.primary | (b.secondary << 8) | (b.subordinate << 16) == w & 0xFF_FFFF
  {
    BusNumbers(w & 0xFF, (w >> 8) & 0xFF, (w >> 16) & 0xFF)
  }

  /** Memory window of a bridge (register index 8). */
  datatype MemoryWindow = MemoryWindow(base: bv32, limit: bv32)

  /** Base is the low half of the register, limit the high half. */
  function DecodeMemoryWindow(w: bv32): (m: MemoryWindow)
    ensures m.base < 0x1_0000 && m.limit < 0x1_0000
    ensures m.base | (m.limit << 16) == w
  {
    MemoryWindow(w & 0xFFFF, (w >> 16) & 0xFFFF)
  }
}
