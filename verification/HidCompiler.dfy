/** The report descriptor compiler as a machine over items: `parse_report_map_data` of
    hid_parser.cpp, which follows sections 6.2.2.4 to 6.2.2.8 of HID 1.11. */
module HidCompiler {
  import Bits
  import opened Integers
  import opened HidItems
  import opened HidSchema

  const MAIN := 0x00

  const INPUT: uint8 := 0x80
  const OUTPUT: uint8 := 0x90
  const COLLECTION: uint8 := 0xA0
  const FEATURE: uint8 := 0xB0
  const END_COLLECTION: uint8 := 0xC0
  const USAGE_PAGE: uint8 := 0x04
  const LOGICAL_MINIMUM: uint8 := 0x14
  const LOGICAL_MAXIMUM: uint8 := 0x24
  const PHYSICAL_MINIMUM: uint8 := 0x34
  const PHYSICAL_MAXIMUM: uint8 := 0x44
  const UNIT_EXPONENT: uint8 := 0x54
  const UNIT: uint8 := 0x64
  const REPORT_SIZE: uint8 := 0x74
  const REPORT_ID: uint8 := 0x84
  const REPORT_COUNT: uint8 := 0x94
  const PUSH: uint8 := 0xA4
  const POP: uint8 := 0xB4
  const USAGE: uint8 := 0x08
  const USAGE_MINIMUM: uint8 := 0x18
  const USAGE_MAXIMUM: uint8 := 0x28
  const DESIGNATOR_INDEX: uint8 := 0x38
  const DESIGNATOR_MINIMUM: uint8 := 0x48
  const DESIGNATOR_MAXIMUM: uint8 := 0x58
  const STRING_INDEX: uint8 := 0x78
  const STRING_MINIMUM: uint8 := 0x88
  const STRING_MAXIMUM: uint8 := 0x98
  const DELIMITER: uint8 := 0xA8

  datatype Global = Global(
    usagePage: uint16, logical: Range, physical: Range, unitExponent: int, unit: uint32,
    reportSize: uint32, reportCount: uint32, reportId: uint8)

  const INITIAL_GLOBAL := Global(0, Range(0, 0), Range(0, 0), 0, 0, 0, 0, 0)

  /** The three items of one kind of index: single indices, a minimum and a maximum. */
  datatype IndexItems = IndexItems(list: seq<uint32>, minimum: uint32, maximum: uint32,
                                   hasMinimum: bool, hasMaximum: bool)
  {
    function Collected(): Indices { Indices(list, minimum, maximum, hasMinimum && hasMaximum) }
  }

  const NO_INDICES := IndexItems([], 0, 0, false, false)

  datatype LocalItems = LocalItems(
    usageSets: seq<seq<Usage>>, activeSet: nat,
    usageMinimum: Usage, usageMaximum: Usage, hasUsageMinimum: bool, hasUsageMaximum: bool,
    designators: IndexItems, strings: IndexItems, delimiterOpen: bool)

  const NO_LOCALS := LocalItems([[]], 0, NO_USAGE, NO_USAGE, false, false, NO_INDICES, NO_INDICES, false)

  /** Usages are collected in one of several sets; the first one always exists. */
  type Local = l: LocalItems | l.activeSet < |l.usageSets| witness NO_LOCALS

  datatype Machine = Machine(
    global: Global, local: Local, globalStack: seq<Global>, collectionStack: seq<uint16>,
    schema: Schema, offset: nat)

  const INITIAL := Machine(INITIAL_GLOBAL, NO_LOCALS, [], [], EMPTY_SCHEMA, 0)

  function TagOf(prefix: uint8): uint8 {
    prefix - prefix % 4
  }

  function DecodeUsage(raw: uint32, size: nat, page: uint16): Usage {
    if size == 4 then Usage(raw % 0x1_0000, raw / 0x1_0000) else Usage(raw % 0x1_0000, page)
  }

  /** A maximum is signed exactly when the minimum before it is negative. */
  function DecodeMaximum(raw: uint32, prefix: uint8, minimum: int): int {
    if minimum < 0 then DecodeSigned(raw, prefix) else raw
  }

  /** Only the low nibble counts, as a signed number. */
  function DecodeUnitExponent(raw: uint32): int {
    if raw % 16 >= 8 then raw % 16 - 16 else raw % 16
  }

  /** Global items that set a value; Report ID, Push and Pop are treated by the machine. */
  predicate IsGlobalValue(tag: uint8) {
    tag in {USAGE_PAGE, LOGICAL_MINIMUM, LOGICAL_MAXIMUM, PHYSICAL_MINIMUM, PHYSICAL_MAXIMUM,
            UNIT_EXPONENT, UNIT, REPORT_SIZE, REPORT_COUNT}
  }

  function SetGlobal(g: Global, prefix: uint8, raw: uint32): Option<Global>
    requires IsGlobalValue(TagOf(prefix))
  {
    var tag := TagOf(prefix);
    if tag == USAGE_PAGE then if raw > 0xFFFF then None else Some(g.(usagePage := raw))
    else if tag == LOGICAL_MINIMUM then Some(g.(logical := g.logical.(minimum := DecodeSigned(raw, prefix))))
    else if tag == LOGICAL_MAXIMUM then
      Some(g.(logical := g.logical.(maximum := DecodeMaximum(raw, prefix, g.logical.minimum))))
    else if tag == PHYSICAL_MINIMUM then Some(g.(physical := g.physical.(minimum := DecodeSigned(raw, prefix))))
    else if tag == PHYSICAL_MAXIMUM then
      Some(g.(physical := g.physical.(maximum := DecodeMaximum(raw, prefix, g.physical.minimum))))
    else if tag == UNIT_EXPONENT then Some(g.(unitExponent := DecodeUnitExponent(raw)))
    else if tag == UNIT then Some(g.(unit := raw))
    else if tag == REPORT_SIZE then Some(g.(reportSize := raw))
    else Some(g.(reportCount := raw))
  }

  predicate IsLocalItem(tag: uint8) {
    tag in {USAGE, USAGE_MINIMUM, USAGE_MAXIMUM, DESIGNATOR_INDEX, DESIGNATOR_MINIMUM, DESIGNATOR_MAXIMUM,
            STRING_INDEX, STRING_MINIMUM, STRING_MAXIMUM, DELIMITER}
  }

  function SetLocal(l: Local, page: uint16, tag: uint8, size: nat, raw: uint32): Option<Local>
    requires IsLocalItem(tag)
  {
    if tag == USAGE then
      Some(l.(usageSets := l.usageSets[l.activeSet := l.usageSets[l.activeSet] + [DecodeUsage(raw, size, page)]]))
    else if tag == USAGE_MINIMUM then Some(l.(usageMinimum := DecodeUsage(raw, size, page), hasUsageMinimum := true))
    else if tag == USAGE_MAXIMUM then Some(l.(usageMaximum := DecodeUsage(raw, size, page), hasUsageMaximum := true))
    else if tag == DESIGNATOR_INDEX then Some(l.(designators := l.designators.(list := l.designators.list + [raw])))
    else if tag == DESIGNATOR_MINIMUM then
      Some(l.(designators := l.designators.(minimum := raw, hasMinimum := true)))
    else if tag == DESIGNATOR_MAXIMUM then
      Some(l.(designators := l.designators.(maximum := raw, hasMaximum := true)))
    else if tag == STRING_INDEX then Some(l.(strings := l.strings.(list := l.strings.list + [raw])))
    else if tag == STRING_MINIMUM then Some(l.(strings := l.strings.(minimum := raw, hasMinimum := true)))
    else if tag == STRING_MAXIMUM then Some(l.(strings := l.strings.(maximum := raw, hasMaximum := true)))
    else if raw == 1 then
      if l.delimiterOpen then None
      else Some(l.(delimiterOpen := true, usageSets := l.usageSets + [[]], activeSet := |l.usageSets|))
    else if raw == 0 then
      if !l.delimiterOpen then None else Some(l.(delimiterOpen := false, activeSet := 0))
    else None
  }

  /** Usages of the delimited sets, in order. */
  function Flatten(sets: seq<seq<Usage>>): seq<Usage> {
    if sets == [] then [] else Flatten(sets[..|sets| - 1]) + sets[|sets| - 1]
  }

  function Top(stack: seq<uint16>): uint16 {
    if stack == [] then NO_PARENT else stack[|stack| - 1]
  }

  function NewCollection(m: Machine, raw: uint32): Collection
    requires |m.schema.collections| < MAX_COLLECTIONS
  {
    var l := m.local;
    Collection(|m.schema.collections|, Top(m.collectionStack), raw % 0x100,
               if l.usageSets[0] != [] then l.usageSets[0][0]
               else if l.hasUsageMinimum then l.usageMinimum else NO_USAGE,
               Flatten(l.usageSets[1..]))
  }

  function OpenCollection(m: Machine, raw: uint32): Option<Machine> {
    if |m.schema.collections| >= MAX_COLLECTIONS || |m.collectionStack| >= MAX_COLLECTION_DEPTH then None
    else
      Some(m.(schema := m.schema.(collections := m.schema.collections + [NewCollection(m, raw)]),
              collectionStack := m.collectionStack + [|m.schema.collections|],
              local := NO_LOCALS))
  }

  function KindOf(tag: uint8): ReportKind {
    if tag == INPUT then Input else if tag == OUTPUT then Output else Feature
  }

  function NewField(m: Machine, kind: ReportKind, raw: uint32, bitOffset: nat): Field
    requires |m.schema.fields| < MAX_FIELDS
  {
    var g, l := m.global, m.local;
    Field(|m.schema.fields|, kind, g.reportId, Top(m.collectionStack), bitOffset,
          g.reportSize, g.reportCount, raw % 0x200, g.logical, g.physical, g.unitExponent, g.unit,
          l.usageSets[0], l.usageSets[1..], l.usageMinimum, l.usageMaximum,
          l.hasUsageMinimum && l.hasUsageMaximum, l.strings.Collected(), l.designators.Collected())
  }

  /** Input, Output and Feature items append a field to the report of their kind and id. */
  function AddField(m: Machine, kind: ReportKind, raw: uint32): Option<Machine> {
    var g, s := m.global, m.schema;
    if g.reportSize == 0 || g.reportSize > 32 || g.reportCount == 0 || g.reportCount > MAX_REPORT_COUNT then None
    else if m.local.delimiterOpen then None
    else
      var r := ReportIndex(s.reports, kind, g.reportId);
      var reports := if r == |s.reports| then s.reports + [Report(kind, g.reportId, 0, [])] else s.reports;
      var bits := g.reportSize * g.reportCount;
      if r == |s.reports| && |s.reports| >= MAX_REPORTS then None
      else if |s.fields| >= MAX_FIELDS then None
      else if bits > MAX_REPORT_BITS || reports[r].bitSize > MAX_REPORT_BITS - bits then None
      else
        var report := reports[r];
        var field := NewField(m, kind, raw, report.bitSize);
        Some(m.(schema := s.(reports := reports[r := report.(bitSize := report.bitSize + bits,
                                                             fieldIds := report.fieldIds + [|s.fields|])],
                             fields := s.fields + [field]),
                local := NO_LOCALS))
  }

  function ShortItem(m: Machine, prefix: uint8, size: nat, raw: uint32): Option<Machine> {
    var tag := TagOf(prefix);
    if IsGlobalValue(tag) then
      (match SetGlobal(m.global, prefix, raw) case None => None case Some(g) => Some(m.(global := g)))
    else if tag == REPORT_ID then
      if raw == 0 || raw > 0xFF then None
      else Some(m.(global := m.global.(reportId := raw), schema := m.schema.(usesReportIds := true)))
    else if tag == PUSH then
      if |m.globalStack| >= MAX_GLOBAL_STACK_DEPTH then None
      else Some(m.(globalStack := m.globalStack + [m.global]))
    else if tag == POP then
      if m.globalStack == [] then None
      else Some(m.(global := m.globalStack[|m.globalStack| - 1], globalStack := m.globalStack[..|m.globalStack| - 1]))
    else if IsLocalItem(tag) then
      (match SetLocal(m.local, m.global.usagePage, tag, size, raw)
       case None => None
       case Some(l) => Some(m.(local := l)))
    else if tag == COLLECTION then OpenCollection(m, raw)
    else if tag == END_COLLECTION then
      if m.collectionStack == [] then None
      else Some(m.(collectionStack := m.collectionStack[..|m.collectionStack| - 1], local := NO_LOCALS))
    else if tag == INPUT || tag == OUTPUT || tag == FEATURE then AddField(m, KindOf(tag), raw)
    else
      Some(m.(schema := m.schema.(diagnostics := m.schema.diagnostics + [UnknownItem(m.offset, prefix, raw)]),
              local := if tag % 16 == MAIN then NO_LOCALS else m.local))
  }

  function RawValue(data: seq<uint8>): uint32 {
    LittleEndian(data) % 0x1_0000_0000
  }

  /** One turn of the compiler's loop; None is its failure exit. */
  function Step(m: Machine, item: Item): Option<Machine> {
    var behind := m.offset + Length(item);
    match item
    case Long(tag, payload) =>
      Some(m.(schema := m.schema.(diagnostics := m.schema.diagnostics + [LongItem(m.offset, tag, |payload|)]),
              offset := behind))
    case Short(prefix, data) =>
      match ShortItem(m, prefix, |data|, RawValue(data))
      case None => None
      case Some(m') => Some(m'.(offset := behind))
  }

  /** The machine after the first `n` items of a list. */
  function Run(m: Machine, items: seq<Item>, n: nat): Option<Machine>
    requires n <= |items|
  {
    if n == 0 then Some(m)
    else
      match Run(m, items, n - 1)
      case None => None
      case Some(m') => Step(m', items[n - 1])
  }

  /** The checks behind the loop: collections closed, at least one report; open Pushes are only noted. */
  function Finish(m: Machine): Option<Schema> {
    if m.collectionStack != [] || m.schema.reports == [] then None
    else if m.globalStack != [] then
      Some(m.schema.(diagnostics := m.schema.diagnostics + [OpenPush(m.offset)]))
    else Some(m.schema)
  }

  /** The loop over items and the checks behind it, for a list of any length. */
  function Interpret(items: seq<Item>): Option<Schema> {
    match Run(INITIAL, items, |items|)
    case None => None
    case Some(m) => Finish(m)
  }

  /** What `parse_report_map_data` computes: a schema, or None for a null result. */
  function Compile(data: seq<uint8>): Option<Schema> {
    if data == [] || |data| > MAX_DESCRIPTOR_BYTES then None
    else
      match Tokenise(data)
      case None => None
      case Some(items) => Interpret(items)
  }

  // ---------- invariant of the machine ----------

  predicate GlobalOk(g: Global) {
    RangeOk(g.logical)
  }

  ghost predicate StackOk(m: Machine) {
    && |m.collectionStack| <= MAX_COLLECTION_DEPTH
    && (forall i | 0 <= i < |m.collectionStack| :: m.collectionStack[i] < |m.schema.collections|)
    && |m.globalStack| <= MAX_GLOBAL_STACK_DEPTH
    && (forall i | 0 <= i < |m.globalStack| :: GlobalOk(m.globalStack[i]))
  }

  ghost predicate Invariant(m: Machine) {
    WellFormed(m.schema) && StackOk(m) && GlobalOk(m.global)
  }

  lemma SignedRange(raw: uint32, prefix: uint8)
    ensures -0x8000_0000 <= DecodeSigned(raw, prefix) < 0x8000_0000
  {
    Pow2Values();
    var bits := 8 * DataSize(prefix);
    if bits != 0 {
      var masked := raw % Pow2(bits);
      if masked >= Pow2(bits - 1) {
        Bits.ModuloUnique(masked, Pow2(bits - 1), 1, masked - Pow2(bits - 1));
      } else {
        Bits.ModuloUnique(masked, Pow2(bits - 1), 0, masked);
      }
      Pow2Monotone(bits - 1, 31);
    }
  }

  lemma SetGlobalKeeps(g: Global, prefix: uint8, raw: uint32)
    requires GlobalOk(g) && IsGlobalValue(TagOf(prefix)) && SetGlobal(g, prefix, raw).Some?
    ensures GlobalOk(SetGlobal(g, prefix, raw).value)
  {
    SignedRange(raw, prefix);
  }

  lemma OpenCollectionKeeps(m: Machine, raw: uint32)
    requires Invariant(m) && OpenCollection(m, raw).Some?
    ensures Invariant(OpenCollection(m, raw).value)
  {
    var s, s' := m.schema, OpenCollection(m, raw).value.schema;
    forall c | 0 <= c < |s'.collections|
      ensures CollectionOk(s'.collections, c)
    {
      if c < |s.collections| {
        assert CollectionOk(s.collections, c);
      }
    }
    forall f | 0 <= f < |s'.fields|
      ensures FieldOk(s', f)
    {
      assert FieldOk(s, f);
    }
  }

  /** Appending a field behind the last one keeps the report tiled. */
  lemma TiledAppend(fields: seq<Field>, report: Report, field: Field, report': Report)
    requires (report.fieldIds == [] && report.bitSize == 0) || Tiled(fields, report)
    requires field.kind == report.kind && field.reportId == report.reportId && field.bitOffset == report.bitSize
    requires report' == report.(bitSize := field.End(), fieldIds := report.fieldIds + [|fields|])
    requires field.End() <= MAX_REPORT_BITS
    ensures Tiled(fields + [field], report')
  {
    var ids, ids', all := report.fieldIds, report'.fieldIds, fields + [field];
    forall i | 0 <= i < |ids'|
      ensures Describes(all, report', ids'[i])
    {
      if i < |ids| {
        assert Describes(fields, report, ids[i]);
      }
    }
    forall i, j | 0 <= i && j == i + 1 && j < |ids'|
      ensures ids'[i] < ids'[j] && all[ids'[j]].bitOffset == all[ids'[i]].End()
    {
      assert Describes(fields, report, ids[i]);
      if j < |ids| {
        assert Describes(fields, report, ids[j]);
      }
    }
  }

  lemma TiledMoreFields(fields: seq<Field>, field: Field, report: Report)
    requires Tiled(fields, report)
    ensures Tiled(fields + [field], report)
  {
    var ids := report.fieldIds;
    forall i | 0 <= i < |ids|
      ensures Describes(fields + [field], report, ids[i])
    {
      assert Describes(fields, report, ids[i]);
    }
    forall i, j | 0 <= i && j == i + 1 && j < |ids|
      ensures ids[i] < ids[j] && (fields + [field])[ids[j]].bitOffset == (fields + [field])[ids[i]].End()
    {
      assert Describes(fields, report, ids[i]) && Describes(fields, report, ids[j]);
    }
  }

  /** The state change of AddField, by name. */
  lemma AddFieldEffect(m: Machine, kind: ReportKind, raw: uint32)
    returns (r: nat, before: Report, field: Field, after: Report)
    requires AddField(m, kind, raw).Some?
    ensures var m' := AddField(m, kind, raw).value;
      m'.global == m.global && m'.globalStack == m.globalStack && m'.collectionStack == m.collectionStack
    ensures var s, s' := m.schema, AddField(m, kind, raw).value.schema;
      && |s.fields| < MAX_FIELDS && |s'.reports| <= Max(|s.reports|, MAX_REPORTS)
      && r <= |s.reports| && r == ReportIndex(s.reports, kind, m.global.reportId)
      && before == (if r < |s.reports| then s.reports[r] else Report(kind, m.global.reportId, 0, []))
      && field == NewField(m, kind, raw, before.bitSize)
      && field.id == |s.fields| && field.kind == kind && field.reportId == m.global.reportId
      && field.bitOffset == before.bitSize && field.flags < 0x200 && field.logical == m.global.logical
      && field.collectionId == Top(m.collectionStack)
      && 1 <= field.reportSize <= 32 && 1 <= field.reportCount <= MAX_REPORT_COUNT
      && after == before.(bitSize := field.End(), fieldIds := before.fieldIds + [|s.fields|])
      && field.End() <= MAX_REPORT_BITS
      && s'.fields == s.fields + [field]
      && s'.collections == s.collections
      && |s'.reports| == (if r < |s.reports| then |s.reports| else |s.reports| + 1)
      && s'.reports[r] == after
      && forall i | 0 <= i < |s.reports| && i != r :: s'.reports[i] == s.reports[i]
  {
    r := ReportIndex(m.schema.reports, kind, m.global.reportId);
    before := if r < |m.schema.reports| then m.schema.reports[r] else Report(kind, m.global.reportId, 0, []);
    field := NewField(m, kind, raw, before.bitSize);
    after := before.(bitSize := field.End(), fieldIds := before.fieldIds + [|m.schema.fields|]);
  }

  function Max(a: int, b: int): int {
    if a < b then b else a
  }

  lemma AddFieldKeeps(m: Machine, kind: ReportKind, raw: uint32)
    requires Invariant(m) && AddField(m, kind, raw).Some?
    ensures Invariant(AddField(m, kind, raw).value)
  {
    hide AddField, NewField;
    var s, s' := m.schema, AddField(m, kind, raw).value.schema;
    var r, before, field, after := AddFieldEffect(m, kind, raw);
    forall i | 0 <= i < |s'.reports|
      ensures Tiled(s'.fields, s'.reports[i])
    {
      if i == r {
        TiledAppend(s.fields, before, field, after);
      } else {
        TiledMoreFields(s.fields, field, s.reports[i]);
      }
    }
    AddFieldKeepsFields(s, s', r, field);
  }

  lemma AddFieldKeepsFields(s: Schema, s': Schema, r: nat, field: Field)
    requires forall f | 0 <= f < |s.fields| :: FieldOk(s, f)
    requires s'.fields == s.fields + [field] && s'.collections == s.collections
    requires |s.reports| <= |s'.reports| && r < |s'.reports|
    requires forall i | 0 <= i < |s.reports| && i != r :: s'.reports[i] == s.reports[i]
    requires r < |s.reports| ==> s'.reports[r].fieldIds == s.reports[r].fieldIds + [|s.fields|]
    requires |s.fields| in s'.reports[r].fieldIds
    requires field.id == |s.fields| && 1 <= field.reportSize <= 32 && 1 <= field.reportCount <= MAX_REPORT_COUNT
    requires field.flags < 0x200 && RangeOk(field.logical)
    requires field.collectionId == NO_PARENT || field.collectionId < |s.collections|
    ensures forall f | 0 <= f < |s'.fields| :: FieldOk(s', f)
  {
    forall f | 0 <= f < |s'.fields|
      ensures FieldOk(s', f)
    {
      if f < |s.fields| {
        assert FieldOk(s, f);
        var q :| 0 <= q < |s.reports| && f in s.reports[q].fieldIds;
        assert f in s'.reports[q].fieldIds;
      }
    }
  }

  lemma ShortItemKeeps(m: Machine, prefix: uint8, size: nat, raw: uint32)
    requires Invariant(m) && ShortItem(m, prefix, size, raw).Some?
    ensures Invariant(ShortItem(m, prefix, size, raw).value)
  {
    hide DecodeSigned, SetLocal, WellFormed, NewCollection, NewField;
    var tag := TagOf(prefix);
    if IsGlobalValue(tag) {
      SetGlobalKeeps(m.global, prefix, raw);
    } else if tag == COLLECTION {
      OpenCollectionKeeps(m, raw);
    } else if tag == INPUT || tag == OUTPUT || tag == FEATURE {
      AddFieldKeeps(m, KindOf(tag), raw);
    } else {
      SameLayout(m.schema, ShortItem(m, prefix, size, raw).value.schema);
    }
  }

  lemma StepKeeps(m: Machine, item: Item)
    requires Invariant(m) && Step(m, item).Some?
    ensures Invariant(Step(m, item).value)
  {
    hide ShortItem, WellFormed;
    if item.Short? {
      ShortItemKeeps(m, item.prefix, |item.data|, RawValue(item.data));
    } else {
      SameLayout(m.schema, Step(m, item).value.schema);
    }
  }

  lemma SameLayout(s: Schema, s': Schema)
    requires WellFormed(s)
    requires s'.reports == s.reports && s'.fields == s.fields && s'.collections == s.collections
    ensures WellFormed(s')
  {
    forall f | 0 <= f < |s'.fields|
      ensures FieldOk(s', f)
    {
      assert FieldOk(s, f);
    }
  }

  /** A short item with one data byte. */
  lemma ByteStep(m: Machine, prefix: uint8, value: uint8)
    ensures Step(m, Short(prefix, [value]))
      == (match ShortItem(m, prefix, 1, value) case None => None case Some(m') => Some(m'.(offset := m.offset + 2)))
  {
    hide ShortItem;
    assert [value][1..] == [];
    assert LittleEndian([value]) == value;
  }

  lemma RunNone(m: Machine, items: seq<Item>)
    ensures Run(m, items, 0) == Some(m)
  {
  }

  lemma RunLast(m: Machine, items: seq<Item>, n: nat)
    requires 0 < n <= |items| && Run(m, items, n).Some?
    ensures Run(m, items, n - 1).Some?
    ensures Step(Run(m, items, n - 1).value, items[n - 1]) == Run(m, items, n)
  {
    hide Step;
  }

  lemma {:induction false} RunPrefix(m: Machine, a: seq<Item>, b: seq<Item>, n: nat)
    requires n <= |a|
    ensures Run(m, a + b, n) == Run(m, a, n)
  {
    hide Step;
    if n > 0 {
      RunPrefix(m, a, b, n - 1);
      assert (a + b)[n - 1] == a[n - 1];
    }
  }

  lemma {:induction false} FailureStays(m: Machine, items: seq<Item>, k: nat, n: nat)
    requires k <= n <= |items| && Run(m, items, k).None?
    ensures Run(m, items, n).None?
    decreases n
  {
    hide Step;
    if k < n {
      FailureStays(m, items, k, n - 1);
    }
  }

  lemma {:induction false} RunKeeps(m: Machine, items: seq<Item>, n: nat)
    requires n <= |items| && Invariant(m) && Run(m, items, n).Some?
    ensures Invariant(Run(m, items, n).value)
  {
    hide Run, Step, Invariant;
    if n == 0 {
      RunNone(m, items);
    } else {
      RunLast(m, items, n);
      RunKeeps(m, items, n - 1);
      StepKeeps(Run(m, items, n - 1).value, items[n - 1]);
    }
  }

  // ---------- depth of the collection forest ----------

  /** The open collections lie inside each other, and no collection lies deeper than allowed. */
  ghost predicate Nested(m: Machine) {
    && |m.collectionStack| <= MAX_COLLECTION_DEPTH && DepthLimited(m.schema)
    && forall i | 0 <= i < |m.collectionStack| ::
         && m.collectionStack[i] < |m.schema.collections|
         && CollectionDepth(m.schema.collections, m.collectionStack[i]) == i + 1
  }

  lemma OpenCollectionNests(m: Machine, raw: uint32)
    requires Nested(m) && OpenCollection(m, raw).Some?
    ensures Nested(OpenCollection(m, raw).value)
  {
    hide CollectionDepth;
    var was, more, m' := m.schema.collections, NewCollection(m, raw), OpenCollection(m, raw).value;
    var n := |was|;
    forall c | 0 <= c < n
      ensures CollectionDepth(m'.schema.collections, c) == CollectionDepth(was, c)
    {
      DepthStays(was, more, c);
    }
    NewDepth(was, more);
    if m.collectionStack != [] {
      assert CollectionDepth(was, m.collectionStack[|m.collectionStack| - 1]) == |m.collectionStack|;
    }
  }

  lemma NewDepth(was: seq<Collection>, more: Collection)
    requires more.parent == NO_PARENT || more.parent < |was|
    ensures CollectionDepth(was + [more], |was|)
      == (if more.parent == NO_PARENT then 1 else 1 + CollectionDepth(was + [more], more.parent))
  {
  }

  lemma ShortItemNests(m: Machine, prefix: uint8, size: nat, raw: uint32)
    requires Nested(m) && ShortItem(m, prefix, size, raw).Some?
    ensures Nested(ShortItem(m, prefix, size, raw).value)
  {
    hide CollectionDepth, SetGlobal, SetLocal, OpenCollection, NewField;
    if TagOf(prefix) == COLLECTION {
      OpenCollectionNests(m, raw);
    }
  }

  lemma StepNests(m: Machine, item: Item)
    requires Nested(m) && Step(m, item).Some?
    ensures Nested(Step(m, item).value)
  {
    hide ShortItem, CollectionDepth;
    if item.Short? {
      ShortItemNests(m, item.prefix, |item.data|, RawValue(item.data));
    }
  }

  lemma {:induction false} RunNests(m: Machine, items: seq<Item>, n: nat)
    requires n <= |items| && Nested(m) && Run(m, items, n).Some?
    ensures Nested(Run(m, items, n).value)
  {
    hide Run, Step, Nested;
    if n == 0 {
      RunNone(m, items);
    } else {
      RunLast(m, items, n);
      RunNests(m, items, n - 1);
      StepNests(Run(m, items, n - 1).value, items[n - 1]);
    }
  }

  /** The schema of every accepted descriptor keeps all limits, its layout is well formed, and it
      describes at least one report. */
  lemma AcceptedIsWellFormed(data: seq<uint8>)
    requires Compile(data).Some?
    ensures WellFormed(Compile(data).value) && DepthLimited(Compile(data).value)
    ensures Compile(data).value.reports != []
    ensures forall r | 0 <= r < |Compile(data).value.reports| ::
      1 <= Compile(data).value.reports[r].ByteSize() <= MAX_REPORT_BITS / 8
  {
    var items := Tokenise(data).value;
    RunKeeps(INITIAL, items, |items|);
    RunNests(INITIAL, items, |items|);
    var s := Compile(data).value;
    SameLayout(Run(INITIAL, items, |items|).value.schema, s);
    forall r | 0 <= r < |s.reports|
      ensures 1 <= s.reports[r].ByteSize() <= MAX_REPORT_BITS / 8
    {
      ReportNotEmpty(s, r);
    }
  }

  lemma ReportNotEmpty(s: Schema, r: nat)
    requires WellFormed(s) && r < |s.reports|
    ensures 1 <= s.reports[r].bitSize <= MAX_REPORT_BITS
  {
    assert Tiled(s.fields, s.reports[r]);
    var last := s.reports[r].fieldIds[|s.reports[r].fieldIds| - 1];
    assert Describes(s.fields, s.reports[r], last);
    assert FieldOk(s, last);
    ScalarInsideField(s.fields[last], s.fields[last].reportCount - 1);
  }

  /** Whatever the compiler accepts, the separate log walk reads to its last byte too. */
  lemma AcceptedIsWholeItems(data: seq<uint8>)
    requires Compile(data).Some?
    ensures Tokenise(data).Some?
    ensures var items := Tokenise(data).value;
      && AllLegal(items) && EncodeAll(items) == data
      && Run(INITIAL, items, |items|).Some? && Run(INITIAL, items, |items|).value.offset == |data|
  {
    EncodeTokenised(data);
    var items := Tokenise(data).value;
    OffsetAfterRun(INITIAL, items, |items|);
    assert items[..|items|] == items;
  }

  lemma StepOffset(m: Machine, item: Item)
    requires Step(m, item).Some?
    ensures Step(m, item).value.offset == m.offset + Length(item)
  {
    hide ShortItem;
  }

  lemma RunStepOffset(m: Machine, items: seq<Item>, n: nat)
    requires 0 < n <= |items| && Run(m, items, n).Some?
    ensures Run(m, items, n - 1).Some?
    ensures Run(m, items, n).value.offset == Run(m, items, n - 1).value.offset + Length(items[n - 1])
  {
    hide Step;
    RunLast(m, items, n);
    StepOffset(Run(m, items, n - 1).value, items[n - 1]);
  }

  lemma {:induction false} OffsetAfterRun(m: Machine, items: seq<Item>, n: nat)
    requires n <= |items| && Run(m, items, n).Some?
    ensures Run(m, items, n).value.offset == m.offset + |EncodeAll(items[..n])|
  {
    hide Run, EncodeAll, Encode;
    if n == 0 {
      RunNone(m, items);
      EncodeAllEmpty(items[..n]);
    } else {
      RunStepOffset(m, items, n);
      OffsetAfterRun(m, items, n - 1);
      EncodeAllNext(items, n);
    }
  }
}
