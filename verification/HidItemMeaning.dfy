/** What each short item does, read off its bytes: sections 6.2.2.4 to 6.2.2.8 of HID 1.11 for items of
    every size, in terms of the number in the data bytes. */
module HidItemMeaning {
  import opened Integers
  import opened Bits
  import opened HidItems
  import opened HidSchema
  import opened HidCompiler

  /** The data bytes as a two's complement number. */
  function SignedValue(data: seq<uint8>): int {
    var n, bits := LittleEndian(data), 8 * |data|;
    if data != [] && n >= Pow2(bits - 1) then n - Pow2(bits) else n
  }

  ghost predicate IsShort(prefix: uint8, data: seq<uint8>, tags: set<uint8>) {
    Legal(Short(prefix, data)) && prefix / 4 * 4 in tags
  }

  lemma DataFits(prefix: uint8, data: seq<uint8>)
    requires Legal(Short(prefix, data))
    ensures |data| in {0, 1, 2, 4} && LittleEndian(data) < 0x1_0000_0000
    ensures |data| <= 2 ==> LittleEndian(data) < 0x1_0000
    ensures RawValue(data) == LittleEndian(data)
  {
    LittleEndianBound(data);
    Pow2Monotone(8 * |data|, 32);
    Pow2Values();
    if |data| <= 2 {
      Pow2Monotone(8 * |data|, 16);
    }
  }

  lemma SignedMeans(prefix: uint8, data: seq<uint8>)
    requires Legal(Short(prefix, data)) && LittleEndian(data) < 0x1_0000_0000
    ensures DecodeSigned(LittleEndian(data), prefix) == SignedValue(data)
  {
    var n, bits := LittleEndian(data), 8 * |data|;
    LittleEndianBound(data);
    if data != [] {
      var half := Pow2(bits - 1);
      ModuloUnique(n, 2 * half, 0, n);
      ModuloUnique(n, half, if n >= half then 1 else 0, if n >= half then n - half else n);
    }
  }

  /** The machine behind an item that only changes what is named. */
  function Moved(m: Machine, data: seq<uint8>): Machine {
    m.(offset := m.offset + 1 + |data|)
  }

  /** With four data bytes the high half of a usage is its Usage Page; with fewer the page is the one that
      stands. */
  function NamedUsage(data: seq<uint8>, page: uint16): Usage {
    var n := LittleEndian(data);
    if |data| == 4 then Usage(n % 0x1_0000, n / 0x1_0000 % 0x1_0000) else Usage(n % 0x1_0000, page)
  }

  lemma NamedIsDecoded(prefix: uint8, data: seq<uint8>, page: uint16)
    requires Legal(Short(prefix, data)) && LittleEndian(data) < 0x1_0000_0000
    ensures DecodeUsage(LittleEndian(data), |data|, page) == NamedUsage(data, page)
  {
    hide LittleEndian;
    var n := LittleEndian(data);
    assert n / 0x1_0000 < 0x1_0000;
  }

  /** The number of a usage is not cut short: the halves make the four bytes, fewer bytes are the usage. */
  lemma UsageIsWhole(prefix: uint8, data: seq<uint8>, page: uint16)
    requires Legal(Short(prefix, data))
    ensures var usage := NamedUsage(data, page);
      if |data| == 4 then usage.page * 0x1_0000 + usage.usage == LittleEndian(data)
      else usage == Usage(LittleEndian(data) % 0x1_0000, page) && usage.usage == LittleEndian(data)
  {
    DataFits(prefix, data);
    hide LittleEndian;
    var n := LittleEndian(data);
    assert n / 0x1_0000 < 0x1_0000;
  }

  /** Usage, Usage Minimum and Usage Maximum. */
  lemma UsageItemsMean(m: Machine, prefix: uint8, data: seq<uint8>)
    requires IsShort(prefix, data, {0x08, 0x18, 0x28})
    ensures var usage, l := NamedUsage(data, m.global.usagePage), m.local;
      Step(m, Short(prefix, data))
        == Some(Moved(m, data).(
             local := if prefix / 4 * 4 == 0x08
                      then l.(usageSets := l.usageSets[l.activeSet := l.usageSets[l.activeSet] + [usage]])
                      else if prefix / 4 * 4 == 0x18 then l.(usageMinimum := usage, hasUsageMinimum := true)
                      else l.(usageMaximum := usage, hasUsageMaximum := true)))
  {
    hide LittleEndian, DecodeUsage, NamedUsage;
    DataFits(prefix, data);
    NamedIsDecoded(prefix, data, m.global.usagePage);
  }

  /** Usage Page, ranges, units, sizes and counts. A maximum is signed exactly behind a negative minimum. */
  lemma GlobalItemsMean(m: Machine, prefix: uint8, data: seq<uint8>)
    requires IsShort(prefix, data, {0x04, 0x14, 0x24, 0x34, 0x44, 0x54, 0x64, 0x74, 0x94})
    ensures var n, v, g, tag := LittleEndian(data), SignedValue(data), m.global, prefix / 4 * 4;
      && 0 <= n < 0x1_0000_0000
      && Step(m, Short(prefix, data))
         == if tag == 0x04 && n >= 0x1_0000 then None
            else Some(Moved(m, data).(
              global := match tag
                case 0x04 => g.(usagePage := n)
                case 0x14 => g.(logical := Range(v, g.logical.maximum))
                case 0x24 => g.(logical := Range(g.logical.minimum, if g.logical.minimum < 0 then v else n))
                case 0x34 => g.(physical := Range(v, g.physical.maximum))
                case 0x44 => g.(physical := Range(g.physical.minimum, if g.physical.minimum < 0 then v else n))
                case 0x54 => g.(unitExponent := if n % 16 < 8 then n % 16 else n % 16 - 16)
                case 0x64 => g.(unit := n)
                case 0x74 => g.(reportSize := n)
                case _ => g.(reportCount := n)))
  {
    hide LittleEndian, DecodeSigned, SignedValue;
    DataFits(prefix, data);
    SignedMeans(prefix, data);
  }

  /** Report ID, Push and Pop. */
  lemma StackItemsMean(m: Machine, prefix: uint8, data: seq<uint8>)
    requires IsShort(prefix, data, {0x84, 0xA4, 0xB4})
    ensures var n, tag, stack := LittleEndian(data), prefix / 4 * 4, m.globalStack;
      Step(m, Short(prefix, data))
        == if tag == 0x84 then
             if 1 <= n <= 0xFF
             then Some(Moved(m, data).(global := m.global.(reportId := n), schema := m.schema.(usesReportIds := true)))
             else None
           else if tag == 0xA4 then
             if |stack| < 16 then Some(Moved(m, data).(globalStack := stack + [m.global])) else None
           else if stack == [] then None
           else Some(Moved(m, data).(global := stack[|stack| - 1], globalStack := stack[..|stack| - 1]))
  {
    hide LittleEndian;
    DataFits(prefix, data);
  }

  function WithDesignators(l: Local, x: IndexItems): Local { l.(designators := x) }

  function WithStrings(l: Local, x: IndexItems): Local { l.(strings := x) }

  /** Designator and String items. */
  lemma IndexItemsMean(m: Machine, prefix: uint8, data: seq<uint8>)
    requires IsShort(prefix, data, {0x38, 0x48, 0x58, 0x78, 0x88, 0x98})
    ensures var n, l, tag := LittleEndian(data), m.local, prefix / 4 * 4;
      && 0 <= n < 0x1_0000_0000
      && var x := if tag < 0x78 then l.designators else l.strings;
         var x' := if tag % 0x40 == 0x38 then x.(list := x.list + [n])
                   else if tag % 0x40 == 0x08 then x.(minimum := n, hasMinimum := true)
                   else x.(maximum := n, hasMaximum := true);
         Step(m, Short(prefix, data))
           == Some(Moved(m, data).(local := if tag < 0x78 then WithDesignators(l, x') else WithStrings(l, x')))
  {
    hide LittleEndian;
    DataFits(prefix, data);
  }

  /** Delimiters open and close one set of alternatives at a time. */
  lemma DelimiterMeans(m: Machine, prefix: uint8, data: seq<uint8>)
    requires IsShort(prefix, data, {0xA8})
    ensures var n, l := LittleEndian(data), m.local;
      Step(m, Short(prefix, data))
        == if n == 1 && !l.delimiterOpen then
             Some(Moved(m, data).(local := l.(delimiterOpen := true, usageSets := l.usageSets + [[]],
                                              activeSet := |l.usageSets|)))
           else if n == 0 && l.delimiterOpen then
             Some(Moved(m, data).(local := l.(delimiterOpen := false, activeSet := 0)))
           else None
  {
    hide LittleEndian;
    DataFits(prefix, data);
  }

  /** A collection is named by its first usage, or else by its usage minimum. */
  lemma CollectionMeans(m: Machine, prefix: uint8, data: seq<uint8>)
    requires IsShort(prefix, data, {0xA0})
    ensures var s, l, stack, n := m.schema, m.local, m.collectionStack, |m.schema.collections|;
      && (Step(m, Short(prefix, data)).Some? <==> n < 128 && |stack| < 32)
      && (Step(m, Short(prefix, data)).Some? ==>
            var c := Step(m, Short(prefix, data)).value.schema.collections[n];
            && c.id == n && c.parent == (if stack == [] then 0xFFFF else stack[|stack| - 1])
            && c.kind == LittleEndian(data) % 0x100
            && c.usage == (if l.usageSets[0] != [] then l.usageSets[0][0]
                           else if l.hasUsageMinimum then l.usageMinimum else Usage(0, 0))
            && Step(m, Short(prefix, data))
               == Some(Moved(m, data).(schema := s.(collections := s.collections + [c]),
                                       collectionStack := stack + [n], local := NO_LOCALS)))
  {
    hide LittleEndian, Flatten;
    DataFits(prefix, data);
  }

  /** End Collection. */
  lemma EndMeans(m: Machine, prefix: uint8, data: seq<uint8>)
    requires IsShort(prefix, data, {0xC0})
    ensures var stack := m.collectionStack;
      Step(m, Short(prefix, data))
        == if stack == [] then None
           else Some(Moved(m, data).(collectionStack := stack[..|stack| - 1], local := NO_LOCALS))
  {
    hide LittleEndian;
  }

  /** Flag `k` of a Main item is bit `k` of its data. */
  predicate Flag(data: seq<uint8>, k: nat) {
    k < 8 * |data| && BitAt(data, k)
  }

  lemma LowFlags(b: uint8, high: nat)
    requires high < 2
    ensures var flags := b + 0x100 * high;
      flags % 2 == b % 2 && (flags / 2) % 2 == (b / 2) % 2 && (flags / 4) % 2 == (b / 4) % 2
  {
  }

  lemma LowBit(data: seq<uint8>, k: nat)
    requires data != [] && k < 8
    ensures Flag(data, k) == ((data[0] / Pow2(k)) % 2 == 1)
  {
    hide Pow2;
    assert k / 8 == 0 && k % 8 == k;
  }

  lemma FlagsOf(data: seq<uint8>, flags: nat)
    requires flags == LittleEndian(data) % 0x200
    ensures (flags % 2 == 1) == Flag(data, 0) && ((flags / 2) % 2 == 1) == Flag(data, 1)
    ensures ((flags / 4) % 2 == 1) == Flag(data, 2)
  {
    if data != [] {
      hide Flag;
      var b, rest := data[0], LittleEndian(data[1..]);
      LowFlags(b, rest % 2);
      assert LittleEndian(data) == (b + 0x100 * (rest % 2)) + 0x200 * (rest / 2);
      ModuloUnique(LittleEndian(data), 0x200, rest / 2, b + 0x100 * (rest % 2));
      LowBit(data, 0);
      LowBit(data, 1);
      LowBit(data, 2);
      Pow2Values();
    }
  }

  lemma MainItem(m: Machine, prefix: uint8, data: seq<uint8>)
    requires IsShort(prefix, data, {0x80, 0x90, 0xB0})
    ensures Step(m, Short(prefix, data))
      == (match AddField(m, KindOf(TagOf(prefix)), RawValue(data))
          case None => None
          case Some(m') => Some(m'.(offset := m.offset + 1 + |data|)))
    ensures TagOf(prefix) == prefix / 4 * 4
  {
    hide RawValue, AddField;
  }

  /** Input, Output and Feature: the field takes its kind from the item, its numbers from the global and its
      usages from the local state, and bits 0, 1 and 2 of the data say constant, variable and relative. */
  lemma FieldMeans(m: Machine, prefix: uint8, data: seq<uint8>)
    requires IsShort(prefix, data, {0x80, 0x90, 0xB0}) && Step(m, Short(prefix, data)).Some?
    ensures var g, l, n, s' := m.global, m.local, |m.schema.fields|, Step(m, Short(prefix, data)).value.schema;
      && |s'.fields| == n + 1 && s'.fields[..n] == m.schema.fields
      && var f := s'.fields[n];
         && f.id == n && f.reportId == g.reportId
         && f.kind == (match prefix / 4 * 4 case 0x80 => Input case 0x90 => Output case _ => Feature)
         && f.collectionId == (if m.collectionStack == [] then 0xFFFF else m.collectionStack[|m.collectionStack| - 1])
         && f.reportSize == g.reportSize && f.reportCount == g.reportCount
         && f.logical == g.logical && f.physical == g.physical && f.unitExponent == g.unitExponent && f.unit == g.unit
         && f.usages == l.usageSets[0] && f.alternatives == l.usageSets[1..]
         && f.usageMinimum == l.usageMinimum && f.usageMaximum == l.usageMaximum
         && f.hasUsageRange == (l.hasUsageMinimum && l.hasUsageMaximum)
         && f.IsConstant() == Flag(data, 0) && f.IsVariable() == Flag(data, 1) && f.IsRelative() == Flag(data, 2)
  {
    hide Step, LittleEndian, AddField, Flag;
    DataFits(prefix, data);
    MainItem(m, prefix, data);
    FlagsOf(data, LittleEndian(data) % 0x200);
    var _, _, field, _ := AddFieldEffect(m, KindOf(TagOf(prefix)), RawValue(data));
  }

  /** When a field is accepted: 1 to 32 bits, 1 to 4096 scalars, no open delimiter, at most 512 fields, 64
      reports and 32768 bits of the report. */
  lemma FieldIsAccepted(m: Machine, prefix: uint8, data: seq<uint8>)
    requires IsShort(prefix, data, {0x80, 0x90, 0xB0})
    ensures var g, reports := m.global, m.schema.reports;
      var kind := match prefix / 4 * 4 case 0x80 => Input case 0x90 => Output case _ => Feature;
      var r := ReportIndex(reports, kind, g.reportId);
      Step(m, Short(prefix, data)).Some? == (
        && 1 <= g.reportSize <= 32 && 1 <= g.reportCount <= 4096 && !m.local.delimiterOpen
        && |m.schema.fields| < 512 && (r == |reports| ==> |reports| < 64)
        && (if r == |reports| then 0 else reports[r].bitSize) + g.reportSize * g.reportCount <= 32768)
  {
    hide Step, RawValue, NewField, ReportIndex;
    MainItem(m, prefix, data);
  }

  /** A descriptor is accepted exactly if it has 1 to 4096 bytes of whole items, none of which is refused,
      leaves no collection open and defines a report. */
  lemma AcceptedExactly(data: seq<uint8>)
    ensures Compile(data).Some? == (
      && 1 <= |data| <= 4096 && Tokenise(data).Some?
      && var items := Tokenise(data).value;
         && Run(INITIAL, items, |items|).Some?
         && Run(INITIAL, items, |items|).value.collectionStack == []
         && Run(INITIAL, items, |items|).value.schema.reports != [])
    ensures Compile(data).Some? ==>
      var m := Run(INITIAL, Tokenise(data).value, |Tokenise(data).value|).value;
      Compile(data).value
        == if m.globalStack == [] then m.schema
           else m.schema.(diagnostics := m.schema.diagnostics + [OpenPush(m.offset)])
  {
    hide Tokenise, Run;
  }

  /** All other short items only leave a note, and Main items among them close the local state. */
  lemma UnknownMeans(m: Machine, prefix: uint8, data: seq<uint8>)
    requires Legal(Short(prefix, data))
    requires prefix / 4 * 4 !in {0x04, 0x08, 0x14, 0x18, 0x24, 0x28, 0x34, 0x38, 0x44, 0x48, 0x54, 0x58, 0x64, 0x74,
                                 0x78, 0x80, 0x84, 0x88, 0x90, 0x94, 0x98, 0xA0, 0xA4, 0xA8, 0xB0, 0xB4, 0xC0}
    ensures var note := UnknownItem(m.offset, prefix, LittleEndian(data) % 0x1_0000_0000);
      Step(m, Short(prefix, data))
        == Some(Moved(m, data).(schema := m.schema.(diagnostics := m.schema.diagnostics + [note]),
                                local := if (prefix / 4) % 4 == 0 then NO_LOCALS else m.local))
  {
    hide LittleEndian;
  }
}
