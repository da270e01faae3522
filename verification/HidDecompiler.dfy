/** The way back from an accepted descriptor to a description: every schema that the compiler can
    produce is described by a list of parts. The compiler reads that schema back from the printed
    parts, unless they are longer than a descriptor may be. */
module HidDecompiler {
  import opened Integers
  import opened HidItems
  import opened HidSchema
  import opened HidCompiler
  import opened HidPrinter

  // ---------- reading parts off a run ----------

  /** The part that an item completes, if any. */
  function PartsIn(m: Machine, item: Item): seq<Part> {
    match item
    case Long(_, _) => []
    case Short(prefix, data) =>
      var tag, raw := TagOf(prefix), RawValue(data);
      if tag == COLLECTION && |m.schema.collections| < MAX_COLLECTIONS then
        var c := NewCollection(m, raw); [Open(c.kind, [c.usage], [c.aliases])]
      else if tag == END_COLLECTION then [Close]
      else if (tag == INPUT || tag == OUTPUT || tag == FEATURE) && |m.schema.fields| < MAX_FIELDS then
        [Leaf(NewField(m, KindOf(tag), raw, 0))]
      else []
  }

  /** The parts of the first `n` items of a list. */
  function Parts(m: Machine, items: seq<Item>, n: nat): seq<Part>
    requires n <= |items|
  {
    if n == 0 then []
    else
      match Run(m, items, n - 1)
      case None => []
      case Some(m') => Parts(m, items, n - 1) + PartsIn(m', items[n - 1])
  }

  function Decompiled(data: seq<uint8>): seq<Part> {
    match Tokenise(data)
    case None => []
    case Some(items) => Parts(INITIAL, items, |items|)
  }

  // ---------- what a machine can hold ----------

  predicate GlobalFits(g: Global) {
    RangeOk(g.logical) && RangeOk(g.physical) && -8 <= g.unitExponent < 8
  }

  predicate IndexItemsFit(x: IndexItems) {
    (!x.hasMinimum ==> x.minimum == 0) && (!x.hasMaximum ==> x.maximum == 0)
  }

  predicate LocalFits(l: Local) {
    && (!l.hasUsageMinimum ==> l.usageMinimum == NO_USAGE) && (!l.hasUsageMaximum ==> l.usageMaximum == NO_USAGE)
    && IndexItemsFit(l.designators) && IndexItemsFit(l.strings)
  }

  /** Numbers fit their items, and bounds that were never given are unset. */
  ghost predicate Describable(m: Machine) {
    && GlobalFits(m.global) && LocalFits(m.local)
    && forall i | 0 <= i < |m.globalStack| :: GlobalFits(m.globalStack[i])
  }

  lemma GlobalKeepsFitting(g: Global, prefix: uint8, raw: uint32)
    requires GlobalFits(g) && IsGlobalValue(TagOf(prefix)) && SetGlobal(g, prefix, raw).Some?
    ensures GlobalFits(SetGlobal(g, prefix, raw).value)
  {
    hide DecodeSigned;
    SignedRange(raw, prefix);
  }

  lemma LocalKeepsFitting(l: Local, page: uint16, tag: uint8, size: nat, raw: uint32)
    requires LocalFits(l) && IsLocalItem(tag) && SetLocal(l, page, tag, size, raw).Some?
    ensures LocalFits(SetLocal(l, page, tag, size, raw).value)
  {
    hide DecodeUsage;
  }

  lemma ShortItemKeepsFitting(m: Machine, prefix: uint8, size: nat, raw: uint32)
    requires Describable(m) && ShortItem(m, prefix, size, raw).Some?
    ensures Describable(ShortItem(m, prefix, size, raw).value)
  {
    hide SetGlobal, SetLocal, GlobalFits, NewCollection, NewField, ReportIndex;
    var tag := TagOf(prefix);
    if IsGlobalValue(tag) {
      GlobalKeepsFitting(m.global, prefix, raw);
    } else if tag == REPORT_ID {
      ReportIdKeepsFitting(m.global, raw);
    } else if IsLocalItem(tag) {
      LocalKeepsFitting(m.local, m.global.usagePage, tag, size, raw);
    }
  }

  lemma ReportIdKeepsFitting(g: Global, raw: uint32)
    requires GlobalFits(g) && raw <= 0xFF
    ensures GlobalFits(g.(reportId := raw))
  {
  }

  lemma StepKeepsFitting(m: Machine, item: Item)
    requires Describable(m) && Step(m, item).Some?
    ensures Describable(Step(m, item).value)
  {
    hide ShortItem, GlobalFits, LocalFits;
    if item.Short? {
      ShortItemKeepsFitting(m, item.prefix, |item.data|, RawValue(item.data));
    }
  }

  lemma PartsArePrintable(m: Machine, item: Item)
    requires Describable(m)
    ensures forall i | 0 <= i < |PartsIn(m, item)| :: Printable(PartsIn(m, item)[i])
  {
    hide RangeOk, NewCollection;
  }

  // ---------- the description follows the machine ----------

  /** All that decoding reads of a schema: not the notes about unusual items. */
  function Core(s: Schema): Schema {
    s.(diagnostics := [], usesReportIds := false)
  }

  ghost predicate Mirrors(site: Site, m: Machine) {
    site.stack == m.collectionStack && Core(site.schema) == Core(m.schema)
  }

  function PlaceAll(site: Site, parts: seq<Part>): Option<Site> {
    if parts == [] then Some(site) else Place(site, parts[0])
  }

  lemma CollectionMirrored(site: Site, m: Machine, raw: uint32)
    requires Mirrors(site, m) && OpenCollection(m, raw).Some?
    ensures var c := NewCollection(m, raw); var site' := Place(site, Open(c.kind, [c.usage], [c.aliases]));
      site'.Some? && Mirrors(site'.value, OpenCollection(m, raw).value)
  {
    var c := NewCollection(m, raw);
    assert Flatten([c.aliases]) == Flatten([]) + c.aliases == c.aliases;
    assert [c.aliases][..0] == [];
  }

  lemma FieldMirrored(site: Site, m: Machine, kind: ReportKind, raw: uint32)
    requires Mirrors(site, m) && AddField(m, kind, raw).Some?
    ensures var site' := PlaceLeaf(site, NewField(m, kind, raw, 0));
      site'.Some? && Mirrors(site'.value, AddField(m, kind, raw).value)
  {
    hide ReportIndex;
  }

  lemma ShortItemMirrored(site: Site, m: Machine, prefix: uint8, data: seq<uint8>)
    requires Mirrors(site, m) && ShortItem(m, prefix, |data|, RawValue(data)).Some?
    ensures var site' := PlaceAll(site, PartsIn(m, Short(prefix, data)));
      site'.Some? && Mirrors(site'.value, ShortItem(m, prefix, |data|, RawValue(data)).value)
  {
    hide RawValue, SetGlobal, SetLocal, AddField, NewField, NewCollection, PlaceLeaf, Flatten;
    var tag := TagOf(prefix);
    if tag == COLLECTION {
      CollectionMirrored(site, m, RawValue(data));
    } else if tag == INPUT || tag == OUTPUT || tag == FEATURE {
      AddFieldHasRoom(m, KindOf(tag), RawValue(data));
      FieldMirrored(site, m, KindOf(tag), RawValue(data));
    }
  }

  lemma AddFieldHasRoom(m: Machine, kind: ReportKind, raw: uint32)
    ensures AddField(m, kind, raw).Some? ==> |m.schema.fields| < MAX_FIELDS
  {
    hide ReportIndex, NewField;
  }

  lemma StepMirrored(site: Site, m: Machine, item: Item)
    requires Mirrors(site, m) && Step(m, item).Some?
    ensures var site' := PlaceAll(site, PartsIn(m, item)); site'.Some? && Mirrors(site'.value, Step(m, item).value)
  {
    hide ShortItem, Place;
    if item.Short? {
      hide PartsIn;
      ShortItemMirrored(site, m, item.prefix, item.data);
    }
  }

  lemma {:induction false} BuildPrefix(parts: seq<Part>, more: seq<Part>, n: nat)
    requires n <= |parts|
    ensures Build(parts + more, n) == Build(parts, n)
  {
    hide Place;
    if n > 0 {
      BuildPrefix(parts, more, n - 1);
      assert (parts + more)[n - 1] == parts[n - 1];
    }
  }

  lemma BuildMore(parts: seq<Part>, more: seq<Part>, site: Site)
    requires Build(parts, |parts|) == Some(site) && |more| <= 1
    ensures Build(parts + more, |parts + more|) == PlaceAll(site, more)
  {
    hide Place;
    BuildPrefix(parts, more, |parts|);
    if more == [] {
      assert parts + more == parts;
    }
  }

  lemma OnePartAtMost(m: Machine, item: Item)
    ensures |PartsIn(m, item)| <= 1
  {
    hide NewCollection, NewField;
  }

  lemma {:induction false} RunMirrored(items: seq<Item>, n: nat)
    requires n <= |items| && Run(INITIAL, items, n).Some?
    ensures var parts, m := Parts(INITIAL, items, n), Run(INITIAL, items, n).value;
      && (forall i | 0 <= i < |parts| :: Printable(parts[i])) && Describable(m)
      && Build(parts, |parts|).Some? && Mirrors(Build(parts, |parts|).value, m)
  {
    hide Step, Build, Mirrors, Describable, PartsIn, Printable;
    if n == 0 {
      MirroredAtStart(items);
    } else {
      RunLast(INITIAL, items, n);
      var before := Run(INITIAL, items, n - 1).value;
      var parts, more := Parts(INITIAL, items, n - 1), PartsIn(before, items[n - 1]);
      RunMirrored(items, n - 1);
      StepMirrored(Build(parts, |parts|).value, before, items[n - 1]);
      OnePartAtMost(before, items[n - 1]);
      BuildMore(parts, more, Build(parts, |parts|).value);
      StepKeepsFitting(before, items[n - 1]);
      PartsArePrintable(before, items[n - 1]);
    }
  }

  lemma MirroredAtStart(items: seq<Item>)
    ensures Build([], 0).Some? && Mirrors(Build([], 0).value, INITIAL) && Describable(INITIAL)
    ensures Run(INITIAL, items, 0) == Some(INITIAL) && Parts(INITIAL, items, 0) == []
  {
  }

  // ---------- every accepted descriptor has a description ----------

  /** Every accepted descriptor is described by the parts that its items complete. */
  lemma AcceptedIsDescribed(data: seq<uint8>)
    requires Compile(data).Some?
    ensures var parts := Decompiled(data);
      && (forall i | 0 <= i < |parts| :: Printable(parts[i]))
      && Described(parts).Some? && Core(Described(parts).value) == Core(Compile(data).value)
  {
    hide Run, Parts, Build, Printable, Tokenise;
    var items := Tokenise(data).value;
    RunMirrored(items, |items|);
  }

  /** The normal form of a descriptor: printed from its own description, its items are interpreted to
      the same reports, fields and collections. The compiler takes it exactly if it is not too long. */
  lemma NormalFormReadsBack(data: seq<uint8>)
    requires Compile(data).Some?
    ensures var items := Print(Decompiled(data), |Decompiled(data)|);
      var normal, core := EncodeAll(items), Core(Compile(data).value);
      && Tokenise(normal) == Some(items)
      && Interpret(items).Some? && Core(Interpret(items).value) == core
      && (Compile(normal).Some? <==> |normal| <= MAX_DESCRIPTOR_BYTES)
      && (Compile(normal).Some? ==> Core(Compile(normal).value) == core)
  {
    hide Compile, Decompiled, Described, Interpret, Printable, Core, EncodeAll, Print;
    AcceptedIsDescribed(data);
    PrintedDescriptorReadsBack(Decompiled(data));
  }

  // ---------- normal forms that are too long ----------

  lemma LengthConcat(a: seq<Item>, b: seq<Item>)
    ensures |EncodeAll(a + b)| == |EncodeAll(a)| + |EncodeAll(b)|
  {
    hide EncodeAll;
    EncodeAllConcat(a, b);
  }

  lemma {:induction false} GlobalsLength(f: Field, n: nat)
    requires n <= 10
    ensures |EncodeAll(GlobalItems(f)[..n])| == 5 * n
  {
    hide EncodeAll, Encode, Word, GlobalItem;
    if n == 0 {
      EncodeAllEmpty([]);
    } else {
      GlobalsLength(f, n - 1);
      EncodeAllNext(GlobalItems(f), n);
      GlobalLength(f, n - 1);
    }
  }

  lemma GlobalLength(f: Field, k: nat)
    ensures |Encode(GlobalItem(f, k))| == 5
  {
    hide Word;
    match k
    case 0 => WordIsLegal(LOGICAL_MINIMUM, Provisional(f.logical).minimum);
    case 1 => WordIsLegal(LOGICAL_MAXIMUM, f.logical.maximum);
    case 2 => WordIsLegal(LOGICAL_MINIMUM, f.logical.minimum);
    case 3 => WordIsLegal(PHYSICAL_MINIMUM, Provisional(f.physical).minimum);
    case 4 => WordIsLegal(PHYSICAL_MAXIMUM, f.physical.maximum);
    case 5 => WordIsLegal(PHYSICAL_MINIMUM, f.physical.minimum);
    case 6 => WordIsLegal(UNIT_EXPONENT, f.unitExponent);
    case 7 => WordIsLegal(UNIT, f.unit);
    case 8 => WordIsLegal(REPORT_SIZE, f.reportSize);
    case _ => WordIsLegal(REPORT_COUNT, f.reportCount);
  }

  lemma WordLength(tag: Tag, v: int)
    ensures |EncodeAll([Word(tag, v)])| == 5
  {
    hide Word, Encode;
    WordIsLegal(tag, v);
    EncodeAllFront(Word(tag, v), []);
    assert [Word(tag, v)] + [] == [Word(tag, v)];
  }

  /** Push, ten global items, the Main item and Pop: at least 65 bytes a field. */
  lemma LeafLength(f: Field)
    ensures |EncodeAll(LeafItems(f))| >= 65
  {
    hide EncodeAll, Word, GlobalItems, LocalsOf, Optional;
    var push, main, pop := [Word(PUSH, 0)], [Word(MainTag(f.kind), f.flags)], [Word(POP, 0)];
    var globals, id, locals := GlobalItems(f), Optional(f.reportId != 0, REPORT_ID, f.reportId), LocalsOf(f);
    GlobalsLength(f, 10);
    assert globals[..10] == globals;
    WordLength(PUSH, 0);
    WordLength(MainTag(f.kind), f.flags);
    WordLength(POP, 0);
    LengthConcat(push, globals);
    LengthConcat(push + globals, id);
    LengthConcat(push + globals + id, locals);
    LengthConcat(push + globals + id + locals, main);
    LengthConcat(push + globals + id + locals + main, pop);
  }

  lemma PlaceAddsFields(site: Site, part: Part)
    requires Place(site, part).Some?
    ensures |Place(site, part).value.schema.fields| == |site.schema.fields| + if part.Leaf? then 1 else 0
  {
    hide ReportIndex, Flatten;
  }

  lemma {:induction false} FormLength(parts: seq<Part>, n: nat)
    requires n <= |parts| && Build(parts, n).Some?
    ensures |EncodeAll(Print(parts, n))| >= 65 * |Build(parts, n).value.schema.fields|
  {
    hide EncodeAll, LeafItems, Place;
    if n > 0 {
      FormLength(parts, n - 1);
      PlaceAddsFields(Build(parts, n - 1).value, parts[n - 1]);
      LengthConcat(Print(parts, n - 1), PartItems(parts[n - 1]));
      if parts[n - 1].Leaf? {
        LeafLength(parts[n - 1].field);
      }
    }
  }

  /** Descriptors with 64 or more fields have normal forms that the compiler refuses for their length. */
  lemma ManyFieldsAreTooLong(data: seq<uint8>)
    requires Compile(data).Some? && |Compile(data).value.fields| >= 64
    ensures var parts := Decompiled(data); Compile(EncodeAll(Print(parts, |parts|))) == None
  {
    hide Compile, Decompiled, Interpret, Printable, EncodeAll, Print, Build;
    var parts := Decompiled(data);
    AcceptedIsDescribed(data);
    FormLength(parts, |parts|);
    NormalFormReadsBack(data);
  }

  /** Report Size 1, Report Count 1, and `n` times Input (Data, Variable, Absolute). */
  function ManyBits(n: nat): (items: seq<Item>)
    ensures |items| == n + 2
  {
    [Short(0x75, [1]), Short(0x95, [1])] + seq(n, _ => Short(0x81, [2]))
  }

  ghost predicate HoldsBits(m: Machine, k: nat) {
    && m.global == INITIAL_GLOBAL.(reportSize := 1, reportCount := 1) && m.local == NO_LOCALS
    && m.globalStack == [] && m.collectionStack == [] && |m.schema.fields| == k
    && if k == 0 then m.schema.reports == []
       else |m.schema.reports| == 1 && m.schema.reports[0].kind == Input && m.schema.reports[0].reportId == 0
            && m.schema.reports[0].bitSize == k
  }

  lemma OneMoreBit(m: Machine, k: nat)
    requires HoldsBits(m, k) && k < MAX_FIELDS
    ensures ShortItem(m, 0x81, 1, 2).Some? && HoldsBits(ShortItem(m, 0x81, 1, 2).value, k + 1)
  {
    hide NewField;
    assert ReportIndex(m.schema.reports, Input, 0) == 0;
  }

  lemma {:induction false} BitsRun(n: nat, k: nat)
    requires k <= n <= MAX_FIELDS
    ensures Run(INITIAL, ManyBits(n), k + 2).Some? && HoldsBits(Run(INITIAL, ManyBits(n), k + 2).value, k)
  {
    hide Step, ShortItem;
    var items := ManyBits(n);
    if k == 0 {
      SizesSet(items);
    } else {
      hide HoldsBits;
      BitsRun(n, k - 1);
      var m := Run(INITIAL, items, k + 1).value;
      assert items[k + 1] == Short(0x81, [2]);
      ByteStep(m, 0x81, 2);
      OneMoreBit(m, k - 1);
      Moved(ShortItem(m, 0x81, 1, 2).value, m.offset + 2, k);
    }
  }

  lemma Moved(m: Machine, offset: nat, k: nat)
    ensures HoldsBits(m, k) ==> HoldsBits(m.(offset := offset), k)
  {
  }

  lemma SizesSet(items: seq<Item>)
    requires |items| >= 2 && items[0] == Short(0x75, [1]) && items[1] == Short(0x95, [1])
    ensures Run(INITIAL, items, 2).Some? && HoldsBits(Run(INITIAL, items, 2).value, 0)
  {
    hide Step;
    var m := INITIAL.(global := INITIAL_GLOBAL.(reportSize := 1), offset := 2);
    ByteStep(INITIAL, 0x75, 1);
    ByteStep(m, 0x95, 1);
    assert Run(INITIAL, items, 1) == Some(m);
  }

  lemma {:induction false} BitsLength(items: seq<Item>)
    requires forall i | 0 <= i < |items| :: Length(items[i]) == 2
    ensures |EncodeAll(items)| == 2 * |items|
  {
    if items != [] {
      BitsLength(items[1..]);
    }
  }

  /** There are such descriptors: for every `n` from 64 up to the field limit, one of 2 * n + 4 bytes
      with `n` fields is accepted, and its normal form is not. */
  lemma LongNormalForms(n: nat)
    requires 64 <= n <= MAX_FIELDS
    ensures var data := EncodeAll(ManyBits(n)); var parts := Decompiled(data);
      && |data| == 2 * n + 4 && Compile(data).Some? && |Compile(data).value.fields| == n
      && Compile(EncodeAll(Print(parts, |parts|))) == None
  {
    hide Run, EncodeAll, Tokenise, Decompiled, Print;
    var items := ManyBits(n);
    BitsRun(n, n);
    BitsLength(items);
    TokeniseEncoded(items);
    ManyFieldsAreTooLong(EncodeAll(items));
  }
}
