/**
 * The text the report items print as, following the `printf` formats of
 * `main.c`.  Numbers are rendered as `%d`/`%u` (decimal) and `%X`/`%x`
 * (upper- and lower-case hexadecimal) render them for the non-negative
 * values involved; an absent name prints as "(null)", which is what the GNU
 * C library prints for a null `%s` argument.
 *
 * `RenderItem` is the rendering with every block ending its own line.
 * `RenderItemAsWritten` is what `printBusNumber` and `printMemBaseLim`
 * actually print: their "unused register" branch prints no newline.
 */
module Render {
  import opened Wrappers
  import opened PciConfig
  import opened Enumerator

  const UnusedText: string := "unused register"
  const BusNumbersTitle: string := "BUS NUMBERS :: "
  const MemoryTitle: string := "MEMORY BASE && LIMIT :: "

  function DigitChar(d: nat, upper: bool): char
    requires d < 16
  {
    if d < 10 then ('0' as int + d) as char
    else if upper then ('A' as int + d - 10) as char
    else ('a' as int + d - 10) as char
  }

  /** The digits of `n` in base 10 or 16, without leading zeros. */
  function Numeral(n: nat, base: nat, upper: bool): string
    requires base == 10 || base == 16
    decreases n
  {
    if n < base then [DigitChar(n, upper)]
    else Numeral(n / base, base, upper) + [DigitChar(n % base, upper)]
  }

  function Decimal(n: nat): string
  {
    Numeral(n, 10, false)
  }

  function Hex(w: bv32, upper: bool): string
  {
    Numeral(w as nat, 16, upper)
  }

  /** The value of a hexadecimal or decimal digit, in either case. */
  function DigitValue(ch: char): nat
  {
    if '0' <= ch <= '9' then ch as int - '0' as int
    else if 'A' <= ch <= 'F' then ch as int - 'A' as int + 10
    else if 'a' <= ch <= 'f' then ch as int - 'a' as int + 10
    else 0
  }

  /** The number a string of digits denotes in the given base. */
  function NumeralValue(s: string, base: nat): nat
  {
    if s == [] then 0 else NumeralValue(s[..|s| - 1], base) * base + DigitValue(s[|s| - 1])
  }

  /** `ch` is a digit of the base, in the case `upper` selects for hexadecimal. */
  predicate IsDigit(ch: char, base: nat, upper: bool)
  {
    || '0' <= ch <= '9'
    || (base == 16 && upper && 'A' <= ch <= 'F')
    || (base == 16 && !upper && 'a' <= ch <= 'f')
  }

  lemma DigitRoundTrip(d: nat, base: nat, upper: bool)
    requires base == 10 || base == 16
    requires d < base
    ensures IsDigit(DigitChar(d, upper), base, upper)
    ensures DigitValue(DigitChar(d, upper)) == d
  {
  }

  /**
   * `%d`, `%u`, `%X` and `%x` print a non-empty string of digits of the base
   * (upper- or lower-case as asked) that denotes the number and has no
   * leading zero.
   */
  lemma {:induction false} NumeralRoundTrip(n: nat, base: nat, upper: bool)
    requires base == 10 || base == 16
    ensures |Numeral(n, base, upper)| > 0
    ensures forall i :: 0 <= i < |Numeral(n, base, upper)| ==> IsDigit(Numeral(n, base, upper)[i], base, upper)
    ensures NumeralValue(Numeral(n, base, upper), base) == n
    ensures Numeral(n, base, upper)[0] == '0' ==> n == 0
    decreases n
  {
    var s := Numeral(n, base, upper);
    if n < base {
      DigitRoundTrip(n, base, upper);
      assert s[..0] == [];
    } else {
      NumeralRoundTrip(n / base, base, upper);
      DigitRoundTrip(n % base, base, upper);
      assert s[..|s| - 1] == Numeral(n / base, base, upper);
      assert s[0] == Numeral(n / base, base, upper)[0];
    }
  }

  function NameText(name: Option<string>): string
  {
    match name
    case Some(s) => s
    case None => "(null)"
  }

  /** The rendering in which every block ends its own line. */
  function RenderItem(item: ReportItem): string
  {
    match item
    case General(c, vendorId, deviceId, vendorName, deviceName) =>
      "ADDRESS<bus, device, func>: " + Decimal(c.bus as nat) + " " + Decimal(c.device as nat) + " " + Decimal(c.func as nat)
      + "\nVendor ID: " + Hex(vendorId, true) + "\nDevice ID: " + Hex(deviceId, false)
      + "\nVendor name: " + NameText(vendorName) + "\nDevice name: " + NameText(deviceName) + "\n"
    case BaseIoHeader => "BASE IO REGISTER :: "
    case BaseIoEntry(offset, register) =>
      (match register
       case Unused => UnusedText
       case Value(w) => Decimal(w as nat))
      + (if offset == LastBaseIoRegister then "\n" else ", ")
    case BusNumbersLine(busNumbers) =>
      BusNumbersTitle +
      (match busNumbers
       case Unused => UnusedText + "\n"
       case Value(b) =>
         "Primary: " + Decimal(b.primary as nat) + "; Secondary: " + Decimal(b.secondary as nat)
         + "; Subordinate: " + Decimal(b.subordinate as nat) + "\n")
    case MemoryWindowLine(window) =>
      MemoryTitle +
      (match window
       case Unused => UnusedText + "\n"
       case Value(m) => "Base: " + Decimal(m.base as nat) + "; Limit: " + Decimal(m.limit as nat) + "\n")
    case Separator => "\n"
  }

  /** What `main.c` prints: the two bridge lines print "unused register" with no newline. */
  function RenderItemAsWritten(item: ReportItem): string
  {
    match item
    case BusNumbersLine(Unused) => BusNumbersTitle + UnusedText
    case MemoryWindowLine(Unused) => MemoryTitle + UnusedText
    case _ => RenderItem(item)
  }

  /** The text of a run of items, each rendered by `f`, in order. */
  function Concat(items: seq<ReportItem>, f: ReportItem -> string): string
  {
    if items == [] then "" else Concat(items[..|items| - 1], f) + f(items[|items| - 1])
  }

  function Render(items: seq<ReportItem>): string
  {
    Concat(items, RenderItem)
  }

  function RenderAsWritten(items: seq<ReportItem>): string
  {
    Concat(items, RenderItemAsWritten)
  }

  /** Items after which the output continues on the same line. */
  predicate ContinuesLine(item: ReportItem)
  {
    item.BaseIoHeader? || (item.BaseIoEntry? && item.offset != LastBaseIoRegister)
  }

  /**
   * Every item but the base I/O header and the base I/O entries before
   * offset 10 ends its line; those continue it (after ", " for an entry).
   */
  lemma RenderItemEndsLine(item: ReportItem)
    ensures |RenderItem(item)| > 0
    ensures RenderItem(item)[|RenderItem(item)| - 1] == '\n' <==> !ContinuesLine(item)
    ensures item.BaseIoEntry? && item.offset != LastBaseIoRegister ==>
      RenderItem(item)[|RenderItem(item)| - 2..] == ", "
  {
  }

  /** Printing two runs of items one after the other prints the concatenation of their texts. */
  lemma {:induction false} ConcatAppend(s: seq<ReportItem>, t: seq<ReportItem>, f: ReportItem -> string)
    ensures Concat(s + t, f) == Concat(s, f) + Concat(t, f)
    decreases |t|
  {
    if t == [] {
      assert s + t == s;
    } else {
      assert (s + t)[..|s + t| - 1] == s + t[..|t| - 1];
      ConcatAppend(s, t[..|t| - 1], f);
    }
  }

  lemma EndsWithBlankLine(text: string, line: string)
    requires |line| > 0 && line[|line| - 1] == '\n'
    ensures var all := text + line + "\n"; |all| >= 2 && all[|all| - 2..] == "\n\n"
  {
    var all := text + line + "\n";
    assert all[|all| - 2] == line[|line| - 1];
  }

  /** Items that close a line and are followed by a separator render as a blank line at the end. */
  lemma SeparatedEndsWithBlankLine(items: seq<ReportItem>)
    requires |items| >= 2 && items[|items| - 1] == Separator && !ContinuesLine(items[|items| - 2])
    ensures var text := Render(items); |text| >= 2 && text[|text| - 2..] == "\n\n"
  {
    var n := |items|;
    var last := items[n - 2];
    RenderItemEndsLine(last);
    var pre := items[..n - 1];
    assert pre[..n - 2] == items[..n - 2] && pre[n - 2] == last;
    assert Render(pre) == Render(items[..n - 2]) + RenderItem(last);
    assert Render(items) == Render(pre) + "\n";
    EndsWithBlankLine(Render(items[..n - 2]), RenderItem(last));
  }

  /** Every responding function's report ends with a blank line. */
  lemma RenderedBlockEndsWithBlankLine(read: bv32 -> bv32, vendors: seq<Identity.VendorEntry>,
                                       devices: seq<Identity.DeviceEntry>, c: Coord)
    requires Responds(read, c)
    ensures var text := Render(ProbeCoord(read, vendors, devices, c).items);
      |text| >= 2 && text[|text| - 2..] == "\n\n"
  {
    var items := ProbeCoord(read, vendors, devices, c).items;
    ProbeClosingItem(read, vendors, devices, c);
    assert !ContinuesLine(items[|items| - 2]);
    SeparatedEndsWithBlankLine(items);
  }

  lemma EndsWithText(head: string, tail: string)
    ensures |head + tail| >= |tail| && (head + tail)[|head + tail| - |tail|..] == tail
  {
    assert (head + tail)[|head|..] == tail;
  }

  /** Any four-item report that closes with an unused memory line and the separator ends in "unused register" and one newline. */
  lemma UnusedMemoryClosesReport(items: seq<ReportItem>)
    requires |items| == 4 && items[2] == MemoryWindowLine(Unused) && items[3] == Separator
    ensures var text := RenderAsWritten(items);
      var tail := MemoryTitle + UnusedText + "\n";
      |text| >= |tail| && text[|text| - |tail|..] == tail && text[|text| - 2] != '\n'
  {
    ConcatFour(items, RenderItemAsWritten);
    var head := RenderItemAsWritten(items[0]) + RenderItemAsWritten(items[1]);
    var tail := MemoryTitle + UnusedText + "\n";
    assert RenderAsWritten(items) == head + (MemoryTitle + UnusedText) + "\n";
    assert head + (MemoryTitle + UnusedText) + "\n" == head + tail;
    EndsWithText(head, tail);
    assert tail[|tail| - 2] == 'r';
  }

  /**
   * As written, a bridge whose memory base/limit register reads zero ends its
   * report with "unused register" and a single newline: the character before
   * the last newline is not a newline, so the blank line that separates
   * reports is lost.
   */
  lemma MemoryUnusedLosesBlankLine(read: bv32 -> bv32, vendors: seq<Identity.VendorEntry>,
                                   devices: seq<Identity.DeviceEntry>, c: Coord)
    requires Responds(read, c) && BridgeAt(read, c)
    requires read(RegisterAddress(c, MemoryRegister)) == 0
    ensures var text := RenderAsWritten(ProbeCoord(read, vendors, devices, c).items);
      var tail := MemoryTitle + UnusedText + "\n";
      |text| >= |tail| && text[|text| - |tail|..] == tail && text[|text| - 2] != '\n'
  {
    ProbeItems(read, vendors, devices, c);
    UnusedMemoryClosesReport(ProbeCoord(read, vendors, devices, c).items);
  }

  /** The text of a four-item report (a bridge's) is its items' texts in order. */
  lemma ConcatFour(items: seq<ReportItem>, f: ReportItem -> string)
    requires |items| == 4
    ensures Concat(items, f) == f(items[0]) + f(items[1]) + f(items[2]) + f(items[3])
  {
    var p3, p2, p1 := items[..3], items[..2], items[..1];
    assert Concat(items, f) == Concat(p3, f) + f(items[3]);
    assert p3[..2] == p2 && p3[2] == items[2];
    assert Concat(p3, f) == Concat(p2, f) + f(items[2]);
    assert p2[..1] == p1 && p2[1] == items[1];
    assert Concat(p2, f) == Concat(p1, f) + f(items[1]);
    assert p1[..0] == [] && p1[0] == items[0];
    assert Concat(p1, f) == f(items[0]);
  }

  lemma MemoryLineOpensWithTitle(item: ReportItem)
    requires item.MemoryWindowLine?
    ensures |RenderItemAsWritten(item)| >= |MemoryTitle|
    ensures RenderItemAsWritten(item) == MemoryTitle + RenderItemAsWritten(item)[|MemoryTitle|..]
  {
  }

  /** In `a + (b + u) + (t + r) + "\n"`, the text `u + t` starts right after `a + b`. */
  lemma Infix(a: string, b: string, u: string, t: string, r: string)
    ensures var x := a + (b + u) + (t + r) + "\n";
      var k := |a| + |b|;
      k + |u + t| <= |x| && x[k..k + |u + t|] == u + t
  {
    var x := a + (b + u) + (t + r) + "\n";
    var k := |a| + |b|;
    forall i | 0 <= i < |u + t|
      ensures x[k + i] == (u + t)[i]
    {
      if i < |u| {
        assert x[k + i] == (b + u)[|b| + i];
      } else {
        assert x[k + i] == (t + r)[i - |u|];
      }
    }
  }

  /** In any four-item report whose second item is an unused bus-number line, that line runs into the memory title. */
  lemma UnusedBusNumbersRunOn(items: seq<ReportItem>)
    requires |items| == 4 && items[1] == BusNumbersLine(Unused) && items[2].MemoryWindowLine? && items[3] == Separator
    ensures var text := RenderAsWritten(items);
      var joined := UnusedText + MemoryTitle;
      var k := |RenderItemAsWritten(items[0])| + |BusNumbersTitle|;
      k + |joined| <= |text| && text[k..k + |joined|] == joined
  {
    ConcatFour(items, RenderItemAsWritten);
    MemoryLineOpensWithTitle(items[2]);
    assert RenderItemAsWritten(items[1]) == BusNumbersTitle + UnusedText;
    var m := RenderItemAsWritten(items[2]);
    assert RenderItemAsWritten(items[3]) == "\n";
    Infix(RenderItemAsWritten(items[0]), BusNumbersTitle, UnusedText, MemoryTitle, m[|MemoryTitle|..]);
  }

  /**
   * As written, a bridge whose bus-number register reads zero prints
   * "unused register" and the memory title on one line, right after its
   * general block and the bus-number title.
   */
  lemma BusNumbersUnusedJoinsLines(read: bv32 -> bv32, vendors: seq<Identity.VendorEntry>,
                                   devices: seq<Identity.DeviceEntry>, c: Coord)
    requires Responds(read, c) && BridgeAt(read, c)
    requires read(RegisterAddress(c, BusNumberRegister)) == 0
    ensures var items := ProbeCoord(read, vendors, devices, c).items;
      var text := RenderAsWritten(items);
      var joined := UnusedText + MemoryTitle;
      var k := |RenderItemAsWritten(items[0])| + |BusNumbersTitle|;
      k + |joined| <= |text| && text[k..k + |joined|] == joined
  {
    var items := ProbeCoord(read, vendors, devices, c).items;
    ProbeItems(read, vendors, devices, c);
    UnusedBusNumbersRunOn(items);
  }
}
