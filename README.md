# PCIBusTraverse, modelled in Dafny

PCIBusTraverse is a small Linux tool that lists the PCI functions of a
machine. It uses PCI Configuration Mechanism #1. For every (bus, device,
function) coordinate, in the order bus 0..255, device 0..31, function 0..7,
it writes a configuration address to port 0xCF8 and reads the identity word
back from port 0xCFC. For each function that answers it prints:

- a general block: the coordinate, the vendor and device identifiers, and
  their names from two static tables;
- for a PCI-to-PCI bridge (bit 0 of the header-type byte set), the bus-number
  line and the memory base/limit line;
- for any other function, the six base I/O registers (indices 5 to 10);
- a blank line.

A base I/O register (indices 5 to 10), the bus-number register (index 6 of a
bridge) or the memory base/limit register (index 8 of a bridge) that reads as
zero is printed as "unused register" and is not decoded. No other register
gets this treatment: an identity word of zero is a present function with
vendor 0 and device 0, and a header word of zero takes the base I/O path.

The project has five modules:

- `PciConfig` (`pci_config.dfy`) holds the address encoder, the field
  decoders and the presence and bridge tests. The encoder has round-trip and
  injectivity lemmas. The identity, bus-number and memory decoders have
  round trips. The presence and bridge tests state, as an if-and-only-if,
  which bits they depend on. The header-type decoder states its bound.
- `Identity` (`identity.dfy`) holds the two name lookups. Each is a
  first-match-wins specification function, plus the loop method that
  implements it.
- `Enumerator` (`enumerator.dfy`) holds one method for each routine of
  `main.c` that reads registers or prints a block. `PrintGeneral` returns
  the general item. `FuncIsBridge` returns the answer and the address it
  read. Every other method returns the addresses it read (`trace`) and the
  report items it emitted (`items`). Each method is proved equal to a
  specification function. The address encoder, the decoders and `funcIsOK`
  are functions in `PciConfig`. The two lookups are in `Identity`. The
  sweep (`Enumerate`) is a triple-nested loop proved equal to `Sweep` over
  `AllCoordinates()`. Lemmas about those functions cover:
  - which registers are read;
  - the block structure;
  - silence when nothing answers;
  - one block per responding function;
  - the visiting order.
- `Render` (`render.dfy`) holds the text the items print as, with the
  `printf` formats of `main.c`.
- `Wrappers` (`wrappers.dfy`) holds `Option`.

The machine is a parameter `read: bv32 -> bv32`, which gives the word the
data port returns for a configuration address. The name tables are
parameters `vendors` and `devices`. C `int`s are modelled as their 32-bit
patterns (`bv32`).

`funcIsOK` (main.c:113-115) compares the whole identity word with -1. So a
word such as 0x1234FFFF counts as present, and `PciConfig.IsPresent` states
exactly that.

## Model

| member | source | states |
|---|---|---|
| PciConfig.ConfigAddress | main.c:77-80 | the address always has the enable bit (bit 31) set and is word aligned (bits 1..0 clear) |
| PciConfig.DecodeAddress | main.c:15-19 | the bus, device, function and register fields read back from an address are below 256, 32, 8 and 64 |
| PciConfig.AddressRoundTrip | main.c:77-80 | for in-range arguments, decoding the address gives back the enable bit and the four fields |
| PciConfig.AddressesAreEncodings | main.c:77-80 | every enabled, word-aligned address with bits 30..24 clear is the encoding of its own decoded fields |
| PciConfig.AddressInjective | main.c:77-80 | distinct in-range (bus, device, function, register) tuples give distinct addresses |
| PciConfig.VendorId | main.c:87-89 | the vendor identifier is below 0x10000 |
| PciConfig.DeviceId | main.c:100-102 | the device identifier is below 0x10000 |
| PciConfig.IdentityRoundTrip | main.c:87-102 | the vendor identifier, ORed with the device identifier shifted left by 16, is the whole identity word |
| PciConfig.IdentityOfWord | main.c:87-102 | a word built from a 16-bit vendor and a 16-bit device identifier decodes back to exactly those |
| PciConfig.IsPresent | main.c:113-115 | a function is absent exactly when both the vendor and the device halves of its identity word are 0xFFFF |
| PciConfig.HeaderType | main.c:152 | the header-type byte is below 0x100 |
| PciConfig.IsBridgeHeader | main.c:149-154 | a function is a bridge exactly when bit 16 of its header register is set |
| PciConfig.DecodeBusNumbers | main.c:175-179 | primary, secondary and subordinate are bytes, and together they rebuild the low 24 bits of the register |
| PciConfig.DecodeMemoryWindow | main.c:190-193 | base and limit are 16-bit halves that together rebuild the whole register |
| Identity.VendorNameFirstMatch | main.c:91-98 | the vendor lookup returns no name exactly when no entry has the identifier; otherwise the name of the first entry that has it |
| Identity.DeviceNameFirstMatch | main.c:104-111 | the device lookup returns no name exactly when no entry matches both identifiers; otherwise the name of the first entry that does |
| Identity.FindVendorName | main.c:91-98 | the scanning loop returns the first-match vendor name, or none |
| Identity.FindDeviceName | main.c:104-111 | the scanning loop returns the first-match device name (device and vendor both equal), or none |
| Enumerator.RegisterAddressInjective | main.c:77-80 | two (coordinate, register) pairs share an address exactly when they are equal |
| Enumerator.BaseIoReport | main.c:159-166 | a base I/O entry is unused exactly when the register is zero, and otherwise carries the raw word |
| Enumerator.BusNumbersReport | main.c:170-183 | the bus-number line is unused exactly when the register is zero, and otherwise carries bytes 0, 1 and 2 |
| Enumerator.MemoryWindowReport | main.c:185-197 | the memory line is unused exactly when the register is zero, and otherwise carries the low half as base and the high half as limit |
| Enumerator.PrintGeneral | main.c:139-147 | the general block carries the coordinate, both identifiers and the names the two lookups resolve |
| Enumerator.FuncIsBridge | main.c:149-154 | reads the header register (index 3) of the same coordinate and answers bridge exactly when its bit 16 is set |
| Enumerator.PrintBaseIoRegisters | main.c:156-168 | the loop reads registers 5..10 in order and emits the header then one entry per register, as `BaseIoRun` specifies |
| Enumerator.PrintBusNumbers | main.c:170-183 | reads register 6 once and emits its bus-number line |
| Enumerator.PrintMemBaseLimit | main.c:185-197 | reads register 8 once and emits its memory line |
| Enumerator.ProbeFunction | main.c:121-133 | the body of the innermost loop reads and emits exactly what `ProbeCoord` specifies for the coordinate |
| Enumerator.Enumerate | main.c:117-137 | the triple-nested loop reads and emits exactly what probing every coordinate, in visiting order, does |
| Enumerator.SweepAppend | main.c:117-137 | sweeping two runs of coordinates one after the other reads and emits the concatenation of the two sweeps |
| Enumerator.BaseIoRunTrace | main.c:158-160 | the base I/O loop reads the addresses of registers 5, 6, 7, 8, 9 and 10, in that order |
| Enumerator.BaseIoRunItems | main.c:157-167 | the base I/O loop emits its header and then the six entries, in register order |
| Enumerator.ProbeRegisters | main.c:121-131 | an absent function has only its identity register read; a bridge has registers 0, 3, 6 and 8 read; any other present function has 0, 3 and 5..10 read |
| Enumerator.ProbeItems | main.c:124-133 | an absent function emits nothing; a present one emits its general block, then either the bridge lines or the base I/O block, then the separator |
| Enumerator.ProbeBlock | main.c:124-133 | a present function's report has the general block only first, the separator only last, a bus-number line exactly when it is a bridge, and a base I/O entry exactly when it is not |
| Enumerator.ProbeClosingItem | main.c:128-132 | the item before the separator is the memory line of a bridge, or the register-10 entry otherwise |
| Enumerator.SweepSilentIff | main.c:117-137 | a sweep emits nothing exactly when none of its coordinates responds |
| Enumerator.SilentSweepTrace | main.c:121-122 | when nothing responds, the sweep reads each identity register once, in order, and nothing else |
| Enumerator.AbsentEverywhereSilent | main.c:117-137 | a machine answering all ones everywhere yields an empty report after one identity read per coordinate |
| Enumerator.BlocksOfProbe | main.c:124-133 | one coordinate contributes one separator when it responds and none otherwise |
| Enumerator.SweepBlocks | main.c:117-137 | the sweep prints exactly one separator per responding coordinate |
| Enumerator.AllCoordinatesOrder | main.c:118-120 | the sweep visits every coordinate, in strictly increasing (bus, device, function) order, so each exactly once |
| Enumerator.BusesOrder | main.c:118 | the first n buses hold exactly the coordinates with bus below n, strictly ordered |
| Enumerator.SweepOneResponder | main.c:117-137 | when a single coordinate responds, the sweep emits exactly that coordinate's report |
| Enumerator.SingleFunctionScenario | main.c:117-147 | when only (0,0,0) answers, with 0x12345678, the report is one block with vendor 0x5678 and device 0x1234, and no names when the tables lack those identifiers |
| Render.NumeralRoundTrip | main.c:146 | a printed number is a non-empty string of digits of its base, in the case asked for, that denotes the number and has no leading zero |
| Render.RenderItemEndsLine | main.c:146-196 | with the corrected rendering, every item ends its line except the base I/O header and the entries before register 10, which continue it (entries after ", ") |
| Render.ConcatAppend | main.c:117-137 | printing two runs of items one after the other prints the concatenation of their texts, under either rendering |
| Render.RenderedBlockEndsWithBlankLine | main.c:124-133 | with the corrected rendering, every responding function's report ends in a blank line |
| Render.MemoryUnusedLosesBlankLine | main.c:185-197 | as written, a bridge whose memory register reads zero ends its report with the memory title, "unused register" and a single newline, so the character before the last newline is not a newline |
| Render.BusNumbersUnusedJoinsLines | main.c:170-183 | as written, a bridge whose bus-number register reads zero prints "unused register" directly followed by the memory title, on one line |

## Left out

- `main` and `privilegeLVLIsOK` (main.c:62-75) are not modelled. They cover the `iopl(3)` privilege request, the "Run under sudo!" message and the exit status. These are operating-system interactions.
- `extractRegisterData` (main.c:82-85) is not modelled as port I/O. The `outl`/`inl` pair becomes the parameter `read`, a function from address to word. This assumes every read of an address returns the same word for the whole sweep.
- The contents of the vendor and device tables in `pci.h` are not part of this model. The tables are parameters.
- Enumerator: the reads (`trace`) and the output (`items`) are two separate sequences. Their relative interleaving is not captured, only the order within each.
- Render: the text of each item is a function of the item. Output buffering and `putc`/`printf` as separate calls are not modelled.
- Render.NameText: a missing name prints as "(null)", which is what the GNU C library prints for a null `%s`. Other C libraries may differ, or crash.
- PciConfig.ConfigAddress: the C arithmetic is on signed `int`, where `1 << 31` overflows. The model uses the 32-bit pattern the compiler produces. The arithmetic right shifts in the decoders are followed by masks, so sign extension never shows.

## Findings

| source | as written | input that shows it | evidently intended | confidence | as-written member | corrected member |
|---|---|---|---|---|---|---|
| main.c:181 | `printBusNumber` prints "unused register" with no newline, so the memory line that follows joins it: "BUS NUMBERS :: unused registerMEMORY BASE && LIMIT :: …" | a present bridge whose register 6 reads 0 | the unused case ends its line, like the decoded case at main.c:179 | not executed | Render.BusNumbersUnusedJoinsLines | Render.RenderItemEndsLine |
| main.c:195 | `printMemBaseLim` prints "unused register" with no newline, so the bridge's report ends with one newline instead of a blank line | a present bridge whose register 8 reads 0 | the unused case ends its line, like the decoded case at main.c:193, so the report ends with a blank line | not executed | Render.MemoryUnusedLosesBlankLine | Render.RenderedBlockEndsWithBlankLine |
