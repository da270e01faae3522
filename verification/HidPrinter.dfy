/** Descriptors written from a description. For every list of fields and collections, the compiler's
    loop and final checks read back from the printed bytes exactly what was described, and refuse them
    exactly when the description breaks a limit or the nesting. The compiler itself also refuses what is
    printed on more bytes than a descriptor may have. */
module HidPrinter {
  import opened Integers
  import opened HidItems
  import opened HidSchema
  import opened HidCompiler

  /** One part of a description. Of the field, the id, the collection and the bit offset follow from
      the place where it stands. */
  datatype Part =
    | Leaf(field: Field)
    | Open(kind: uint8, usages: seq<Usage>, aliases: seq<seq<Usage>>)
    | Close

  // ---------- what a description means ----------

  /** The open collections and the schema in front of a part. */
  datatype Site = Site(stack: seq<uint16>, schema: Schema)

  function PlaceLeaf(site: Site, f: Field): Option<Site> {
    var s := site.schema;
    var r := ReportIndex(s.reports, f.kind, f.reportId);
    var known := r < |s.reports|;
    var at := if known then s.reports[r].bitSize else 0;
    if !(1 <= f.reportSize <= 32) || !(1 <= f.reportCount <= MAX_REPORT_COUNT) then None
    else if (!known && |s.reports| >= MAX_REPORTS) || |s.fields| >= MAX_FIELDS then None
    else if at + f.reportSize * f.reportCount > MAX_REPORT_BITS then None
    else
      var field := f.(id := |s.fields|, collectionId := Top(site.stack), bitOffset := at);
      var report := Report(f.kind, f.reportId, field.End(),
                           (if known then s.reports[r].fieldIds else []) + [|s.fields|]);
      Some(site.(schema := s.(reports := if known then s.reports[r := report] else s.reports + [report],
                              fields := s.fields + [field], usesReportIds := s.usesReportIds || f.reportId != 0)))
  }

  function Place(site: Site, part: Part): Option<Site> {
    match part
    case Leaf(f) => PlaceLeaf(site, f)
    case Open(kind, usages, aliases) =>
      var n := |site.schema.collections|;
      if n >= MAX_COLLECTIONS || |site.stack| >= MAX_COLLECTION_DEPTH then None
      else
        var collection := Collection(n, Top(site.stack), kind, if usages == [] then NO_USAGE else usages[0],
                                     Flatten(aliases));
        Some(Site(site.stack + [n], site.schema.(collections := site.schema.collections + [collection])))
    case Close => if site.stack == [] then None else Some(site.(stack := site.stack[..|site.stack| - 1]))
  }

  function Build(parts: seq<Part>, n: nat): Option<Site>
    requires n <= |parts|
  {
    if n == 0 then Some(Site([], EMPTY_SCHEMA))
    else match Build(parts, n - 1) case None => None case Some(site) => Place(site, parts[n - 1])
  }

  /** The schema of a description: all collections closed, and at least one field. */
  function Described(parts: seq<Part>): Option<Schema> {
    match Build(parts, |parts|)
    case None => None
    case Some(site) => if site.stack != [] || site.schema.reports == [] then None else Some(site.schema)
  }

  // ---------- printing ----------

  predicate IndicesFit(x: Indices) {
    !x.hasRange ==> x.minimum == 0 || x.maximum == 0
  }

  /** What a field can be at all: numbers that items can carry, and a range wherever both of its
      ends were given. Every field of an accepted descriptor is of this kind. */
  predicate Printable(part: Part) {
    part.Leaf? ==>
      var f := part.field;
      && RangeOk(f.logical) && RangeOk(f.physical) && -8 <= f.unitExponent < 8 && f.flags < 0x200
      && f.reportSize < 0x1_0000_0000 && f.reportCount < 0x1_0000_0000
      && (!f.hasUsageRange ==> f.usageMinimum == NO_USAGE || f.usageMaximum == NO_USAGE)
      && IndicesFit(f.strings) && IndicesFit(f.designators)
  }

  type Tag = t: uint8 | t % 4 == 0 witness 0

  /** A short item with four data bytes. */
  function Word(tag: Tag, v: int): Item {
    Short(tag + 3, SignedBytes(v, 4))
  }

  function UsageWord(tag: Tag, u: Usage): Item {
    Word(tag, u.page * 0x1_0000 + u.usage)
  }

  /** The same maximum behind a minimum with which the maximum item reads back. */
  function Provisional(range: Range): Range {
    Range(if range.maximum < 0 then -1 else 0, range.maximum)
  }

  function GlobalItem(f: Field, k: nat): Item {
    match k
    case 0 => Word(LOGICAL_MINIMUM, Provisional(f.logical).minimum)
    case 1 => Word(LOGICAL_MAXIMUM, f.logical.maximum)
    case 2 => Word(LOGICAL_MINIMUM, f.logical.minimum)
    case 3 => Word(PHYSICAL_MINIMUM, Provisional(f.physical).minimum)
    case 4 => Word(PHYSICAL_MAXIMUM, f.physical.maximum)
    case 5 => Word(PHYSICAL_MINIMUM, f.physical.minimum)
    case 6 => Word(UNIT_EXPONENT, f.unitExponent)
    case 7 => Word(UNIT, f.unit)
    case 8 => Word(REPORT_SIZE, f.reportSize)
    case _ => Word(REPORT_COUNT, f.reportCount)
  }

  function GlobalItems(f: Field): (items: seq<Item>)
    ensures |items| == 10
  {
    seq(10, k requires 0 <= k < 10 => GlobalItem(f, k))
  }

  function Optional(present: bool, tag: Tag, v: int): seq<Item> {
    if present then [Word(tag, v)] else []
  }

  function UsageItems(usages: seq<Usage>): (items: seq<Item>)
    ensures |items| == |usages|
  {
    seq(|usages|, i requires 0 <= i < |usages| => UsageWord(USAGE, usages[i]))
  }

  /** Delimited sets of alternative usages. */
  function SetItems(sets: seq<seq<Usage>>, n: nat): seq<Item>
    requires n <= |sets|
  {
    if n == 0 then []
    else SetItems(sets, n - 1) + ([Word(DELIMITER, 1)] + UsageItems(sets[n - 1]) + [Word(DELIMITER, 0)])
  }

  predicate HasMinimum(f: Field) {
    f.hasUsageRange || f.usageMinimum != NO_USAGE
  }

  predicate HasMaximum(f: Field) {
    f.hasUsageRange || f.usageMaximum != NO_USAGE
  }

  function UsageRangeItems(f: Field): seq<Item> {
    Optional(HasMinimum(f), USAGE_MINIMUM, f.usageMinimum.page * 0x1_0000 + f.usageMinimum.usage)
    + Optional(HasMaximum(f), USAGE_MAXIMUM, f.usageMaximum.page * 0x1_0000 + f.usageMaximum.usage)
  }

  /** The three tags of string or designator items. */
  datatype IndexTags = IndexTags(index: Tag, minimum: Tag, maximum: Tag)

  const STRING_TAGS := IndexTags(STRING_INDEX, STRING_MINIMUM, STRING_MAXIMUM)
  const DESIGNATOR_TAGS := IndexTags(DESIGNATOR_INDEX, DESIGNATOR_MINIMUM, DESIGNATOR_MAXIMUM)

  function ListItems(tag: Tag, list: seq<uint32>): (items: seq<Item>)
    ensures |items| == |list|
  {
    seq(|list|, i requires 0 <= i < |list| => Word(tag, list[i]))
  }

  function IndexRangeItems(tags: IndexTags, x: Indices): seq<Item> {
    Optional(x.hasRange || x.minimum != 0, tags.minimum, x.minimum)
    + Optional(x.hasRange || x.maximum != 0, tags.maximum, x.maximum)
  }

  function MainTag(kind: ReportKind): Tag {
    match kind case Input => INPUT case Output => OUTPUT case Feature => FEATURE
  }

  function LocalsOf(f: Field): seq<Item> {
    (UsageItems(f.usages) + SetItems(f.alternatives, |f.alternatives|)) + UsageRangeItems(f)
    + (ListItems(DESIGNATOR_TAGS.index, f.designators.list) + IndexRangeItems(DESIGNATOR_TAGS, f.designators))
    + (ListItems(STRING_TAGS.index, f.strings.list) + IndexRangeItems(STRING_TAGS, f.strings))
  }

  /** A field saves and restores the global values, so that none of them leaks into the next part. */
  function LeafItems(f: Field): seq<Item> {
    [Word(PUSH, 0)] + GlobalItems(f) + Optional(f.reportId != 0, REPORT_ID, f.reportId) + LocalsOf(f)
    + [Word(MainTag(f.kind), f.flags)] + [Word(POP, 0)]
  }

  function PartItems(part: Part): seq<Item> {
    match part
    case Leaf(f) => LeafItems(f)
    case Open(kind, usages, aliases) => UsageItems(usages) + SetItems(aliases, |aliases|) + [Word(COLLECTION, kind)]
    case Close => [Word(END_COLLECTION, 0)]
  }

  function Print(parts: seq<Part>, n: nat): seq<Item>
    requires n <= |parts|
  {
    if n == 0 then [] else Print(parts, n - 1) + PartItems(parts[n - 1])
  }

  // ---------- single items ----------

  lemma WordIsLegal(tag: Tag, v: int)
    ensures Legal(Word(tag, v)) && Length(Word(tag, v)) == 5
  {
    SignedBytesValue(v, 4);
  }

  lemma WordStep(m: Machine, tag: Tag, v: int)
    ensures Step(m, Word(tag, v))
      == (match ShortItem(m, tag + 3, 4, v % 0x1_0000_0000)
          case None => None
          case Some(m') => Some(m'.(offset := m.offset + 5)))
  {
    hide ShortItem, SignedBytes, LittleEndian;
    SignedBytesValue(v, 4);
    Pow2Values();
    assert v % 0x1_0000_0000 % 0x1_0000_0000 == v % 0x1_0000_0000;
  }

  lemma SignedWord(tag: Tag, v: int)
    requires -0x8000_0000 <= v < 0x8000_0000
    ensures DecodeSigned(v % 0x1_0000_0000, tag + 3) == v
  {
    hide SignedBytes, LittleEndian, DecodeSigned;
    Pow2Values();
    SignedItemReadsBack(v, tag + 3);
    SignedBytesValue(v, 4);
  }

  predicate Sets(before: Global, tag: Tag, v: int, after: Global) {
    IsGlobalValue(tag) && SetGlobal(before, tag + 3, v % 0x1_0000_0000) == Some(after)
  }

  lemma GlobalWord(m: Machine, tag: Tag, v: int, g: Global)
    requires Sets(m.global, tag, v, g)
    ensures Step(m, Word(tag, v)) == Some(m.(global := g, offset := m.offset + 5))
  {
    hide SetGlobal, Step, Word;
    WordStep(m, tag, v);
  }

  lemma LocalWord(m: Machine, tag: Tag, v: int, l: Local)
    requires IsLocalItem(tag) && SetLocal(m.local, m.global.usagePage, tag, 4, v % 0x1_0000_0000) == Some(l)
    ensures Step(m, Word(tag, v)) == Some(m.(local := l, offset := m.offset + 5))
  {
    hide SetLocal, Step, Word;
    WordStep(m, tag, v);
  }

  /** One more item of a list. */
  lemma RunNext(m: Machine, items: seq<Item>, n: nat, a: Machine, b: Machine)
    requires n < |items| && Run(m, items, n) == Some(a) && Step(a, items[n]) == Some(b)
    ensures Run(m, items, n + 1) == Some(b)
  {
    hide Step;
  }

  lemma RunStart(m: Machine, items: seq<Item>)
    ensures Run(m, items, 0) == Some(m)
  {
  }

  /** A list behind a list. */
  lemma {:induction false} RunBehind(m: Machine, a: seq<Item>, b: seq<Item>, n: nat)
    requires n <= |b|
    ensures Run(m, a + b, |a| + n) == (match Run(m, a, |a|) case None => None case Some(m') => Run(m', b, n))
  {
    hide Step;
    if n == 0 {
      RunPrefix(m, a, b, |a|);
    } else {
      RunBehind(m, a, b, n - 1);
      assert (a + b)[|a| + n - 1] == b[n - 1];
    }
  }

  lemma RunConcat(m: Machine, a: seq<Item>, b: seq<Item>)
    ensures Run(m, a + b, |a + b|) == (match Run(m, a, |a|) case None => None case Some(m') => Run(m', b, |b|))
  {
    hide Run;
    RunBehind(m, a, b, |b|);
  }

  // ---------- global items ----------

  function GlobalOf(page: uint16, f: Field): Global
    requires f.reportSize < 0x1_0000_0000 && f.reportCount < 0x1_0000_0000
  {
    Global(page, f.logical, f.physical, f.unitExponent, f.unit, f.reportSize, f.reportCount, f.reportId)
  }

  lemma MinimumWords(g: Global, low: int)
    requires -0x8000_0000 <= low < 0x8000_0000
    ensures SetGlobal(g, LOGICAL_MINIMUM + 3, low % 0x1_0000_0000) == Some(g.(logical := g.logical.(minimum := low)))
    ensures SetGlobal(g, PHYSICAL_MINIMUM + 3, low % 0x1_0000_0000) == Some(g.(physical := g.physical.(minimum := low)))
  {
    hide DecodeSigned;
    SignedWord(LOGICAL_MINIMUM, low);
    SignedWord(PHYSICAL_MINIMUM, low);
  }

  lemma MaximumDecodes(tag: Tag, range: Range)
    requires RangeOk(range)
    ensures DecodeMaximum(range.maximum % 0x1_0000_0000, tag + 3, Provisional(range).minimum) == range.maximum
  {
    hide DecodeSigned;
    if range.maximum < 0 {
      SignedWord(tag, range.maximum);
    }
  }

  lemma MaximumWords(g: Global, range: Range)
    requires RangeOk(range)
    ensures g.logical.minimum == Provisional(range).minimum ==>
      SetGlobal(g, LOGICAL_MAXIMUM + 3, range.maximum % 0x1_0000_0000) == Some(g.(logical := Provisional(range)))
    ensures g.physical.minimum == Provisional(range).minimum ==>
      SetGlobal(g, PHYSICAL_MAXIMUM + 3, range.maximum % 0x1_0000_0000) == Some(g.(physical := Provisional(range)))
  {
    hide DecodeSigned, DecodeMaximum;
    MaximumDecodes(LOGICAL_MAXIMUM, range);
    MaximumDecodes(PHYSICAL_MAXIMUM, range);
  }

  lemma NumberWords(g: Global, f: Field)
    requires Printable(Leaf(f))
    ensures var M := 0x1_0000_0000;
      && SetGlobal(g, UNIT_EXPONENT + 3, f.unitExponent % M) == Some(g.(unitExponent := f.unitExponent))
      && SetGlobal(g, UNIT + 3, f.unit % M) == Some(g.(unit := f.unit))
      && SetGlobal(g, REPORT_SIZE + 3, f.reportSize % M) == Some(g.(reportSize := f.reportSize))
      && SetGlobal(g, REPORT_COUNT + 3, f.reportCount % M) == Some(g.(reportCount := f.reportCount))
  {
    var e := f.unitExponent;
    assert e % 0x1_0000_0000 == (if e < 0 then e + 0x1_0000_0000 else e);
  }

  lemma ReportIdWord(m: Machine, id: uint8)
    requires id >= 1
    ensures Step(m, Word(REPORT_ID, id))
      == Some(m.(global := m.global.(reportId := id), schema := m.schema.(usesReportIds := true),
                 offset := m.offset + 5))
  {
    hide Step, Word;
    WordStep(m, REPORT_ID, id);
  }

  /** Global item `k` of a field, behind the ones before it. */
  lemma GlobalAt(m: Machine, f: Field, k: nat, before: Global, tag: Tag, v: int, after: Global)
    requires k < 10 && Run(m, GlobalItems(f), k) == Some(m.(global := before, offset := m.offset + 5 * k))
    requires GlobalItem(f, k) == Word(tag, v) && Sets(before, tag, v, after)
    ensures Run(m, GlobalItems(f), k + 1) == Some(m.(global := after, offset := m.offset + 5 * (k + 1)))
  {
    hide Run, Step, SetGlobal, Word, GlobalItem;
    var a := m.(global := before, offset := m.offset + 5 * k);
    GlobalWord(a, tag, v, after);
    RunNext(m, GlobalItems(f), k, a, m.(global := after, offset := m.offset + 5 * (k + 1)));
  }

  function WithRanges(g: Global, f: Field): Global {
    g.(logical := f.logical, physical := f.physical)
  }

  lemma LogicalRun(m: Machine, f: Field)
    requires Printable(Leaf(f))
    ensures Run(m, GlobalItems(f), 3) == Some(m.(global := m.global.(logical := f.logical), offset := m.offset + 15))
  {
    hide Run, Step, SetGlobal, Word, GlobalItems, IndicesFit;
    var g := m.global;
    var g1 := g.(logical := g.logical.(minimum := Provisional(f.logical).minimum));
    var g2 := g.(logical := Provisional(f.logical));
    RunStart(m, GlobalItems(f));
    MinimumWords(g, Provisional(f.logical).minimum);
    GlobalAt(m, f, 0, g, LOGICAL_MINIMUM, Provisional(f.logical).minimum, g1);
    MaximumWords(g1, f.logical);
    GlobalAt(m, f, 1, g1, LOGICAL_MAXIMUM, f.logical.maximum, g2);
    MinimumWords(g2, f.logical.minimum);
    GlobalAt(m, f, 2, g2, LOGICAL_MINIMUM, f.logical.minimum, g.(logical := f.logical));
  }

  lemma RangesRun(m: Machine, f: Field)
    requires Printable(Leaf(f))
    ensures Run(m, GlobalItems(f), 6) == Some(m.(global := WithRanges(m.global, f), offset := m.offset + 30))
  {
    hide Run, Step, SetGlobal, Word, GlobalItems, IndicesFit;
    var g := m.global.(logical := f.logical);
    var g4 := g.(physical := g.physical.(minimum := Provisional(f.physical).minimum));
    var g5 := g.(physical := Provisional(f.physical));
    LogicalRun(m, f);
    MinimumWords(g, Provisional(f.physical).minimum);
    GlobalAt(m, f, 3, g, PHYSICAL_MINIMUM, Provisional(f.physical).minimum, g4);
    MaximumWords(g4, f.physical);
    GlobalAt(m, f, 4, g4, PHYSICAL_MAXIMUM, f.physical.maximum, g5);
    MinimumWords(g5, f.physical.minimum);
    GlobalAt(m, f, 5, g5, PHYSICAL_MINIMUM, f.physical.minimum, WithRanges(m.global, f));
  }

  /** The global items of a field set every global value that the field needs, but for the report id. */
  lemma GlobalsRun(m: Machine, f: Field)
    requires Printable(Leaf(f))
    ensures Run(m, GlobalItems(f), |GlobalItems(f)|)
      == Some(m.(global := GlobalOf(m.global.usagePage, f).(reportId := m.global.reportId), offset := m.offset + 50))
  {
    hide Run, Step, SetGlobal, Word, RangeOk, IndicesFit, GlobalItems;
    var g6 := WithRanges(m.global, f);
    var g7 := g6.(unitExponent := f.unitExponent);
    var g8 := g7.(unit := f.unit);
    var g9 := g8.(reportSize := f.reportSize);
    RangesRun(m, f);
    NumberWords(g6, f);
    GlobalAt(m, f, 6, g6, UNIT_EXPONENT, f.unitExponent, g7);
    NumberWords(g7, f);
    GlobalAt(m, f, 7, g7, UNIT, f.unit, g8);
    NumberWords(g8, f);
    GlobalAt(m, f, 8, g8, REPORT_SIZE, f.reportSize, g9);
    NumberWords(g9, f);
    GlobalAt(m, f, 9, g9, REPORT_COUNT, f.reportCount, g9.(reportCount := f.reportCount));
  }

  /** A schema that has seen the report id of a field: ids other than zero are noted. */
  function Noted(s: Schema, f: Field): Schema {
    s.(usesReportIds := s.usesReportIds || f.reportId != 0)
  }

  /** Id zero is the one that no item names: it stands as long as no id was given. */
  lemma ReportIdRun(m: Machine, f: Field)
    requires m.global.reportId == 0
    ensures var items := Optional(f.reportId != 0, REPORT_ID, f.reportId);
      Run(m, items, |items|)
        == Some(m.(global := m.global.(reportId := f.reportId), schema := Noted(m.schema, f),
                   offset := m.offset + 5 * |items|))
  {
    hide Run, Step, Word;
    var items := Optional(f.reportId != 0, REPORT_ID, f.reportId);
    RunStart(m, items);
    if f.reportId != 0 {
      ReportIdWord(m, f.reportId);
      RunNext(m, items, 0, m, m.(global := m.global.(reportId := f.reportId), schema := Noted(m.schema, f),
                                 offset := m.offset + 5));
    }
  }

  // ---------- local items ----------

  lemma UsageDecodes(u: Usage, page: uint16)
    ensures DecodeUsage((u.page * 0x1_0000 + u.usage) % 0x1_0000_0000, 4, page) == u
  {
  }

  function AddUsages(l: Local, usages: seq<Usage>): Local {
    l.(usageSets := l.usageSets[l.activeSet := l.usageSets[l.activeSet] + usages])
  }

  lemma AddNoUsages(l: Local)
    ensures AddUsages(l, []) == l
  {
    assert l.usageSets[l.activeSet] + [] == l.usageSets[l.activeSet];
    assert l.usageSets[l.activeSet := l.usageSets[l.activeSet]] == l.usageSets;
  }

  lemma AddMoreUsages(l: Local, a: seq<Usage>, b: seq<Usage>)
    ensures AddUsages(AddUsages(l, a), b) == AddUsages(l, a + b)
  {
    var usages := l.usageSets[l.activeSet];
    assert (usages + a) + b == usages + (a + b);
    assert l.usageSets[l.activeSet := usages + a][l.activeSet := (usages + a) + b]
      == l.usageSets[l.activeSet := (usages + a) + b];
  }

  lemma AddOneUsage(l: Local, init: seq<Usage>, u: Usage)
    ensures AddUsages(AddUsages(l, init), [u]) == AddUsages(l, init + [u])
  {
    hide AddUsages;
    AddMoreUsages(l, init, [u]);
  }

  lemma UsageStep(m: Machine, u: Usage)
    ensures Step(m, UsageWord(USAGE, u)) == Some(m.(local := AddUsages(m.local, [u]), offset := m.offset + 5))
  {
    hide Step, Word;
    UsageDecodes(u, m.global.usagePage);
    LocalWord(m, USAGE, u.page * 0x1_0000 + u.usage, AddUsages(m.local, [u]));
  }

  lemma UsageItemsNext(init: seq<Usage>, u: Usage)
    ensures UsageItems(init + [u]) == UsageItems(init) + [UsageWord(USAGE, u)]
  {
    hide UsageWord;
  }

  lemma NoUsageItems()
    ensures UsageItems([]) == []
  {
  }

  /** Usage items go into the active set, in order. */
  lemma {:induction false} AllUsagesRun(m: Machine, usages: seq<Usage>)
    ensures Run(m, UsageItems(usages), |usages|)
      == Some(m.(local := AddUsages(m.local, usages), offset := m.offset + 5 * |usages|))
  {
    hide Run, Step, UsageWord, AddUsages, UsageItems;
    if usages == [] {
      NoUsageItems();
      RunStart(m, []);
      AddNoUsages(m.local);
    } else {
      var init, u := usages[..|usages| - 1], usages[|usages| - 1];
      AllUsagesRun(m, init);
      assert usages == init + [u];
      UsageItemsNext(init, u);
      AddOneUsage(m.local, init, u);
      var m1 := m.(local := AddUsages(m.local, init), offset := m.offset + 5 * |init|);
      OneItemRun(m1, UsageWord(USAGE, u));
      UsageStep(m1, u);
      RunConcat(m, UsageItems(init), [UsageWord(USAGE, u)]);
    }
  }

  /** A delimited set becomes one more usage set, and the first set is active again. */
  lemma OneSetRun(m: Machine, usages: seq<Usage>)
    requires m.local.activeSet == 0 && !m.local.delimiterOpen
    ensures var items := [Word(DELIMITER, 1)] + UsageItems(usages) + [Word(DELIMITER, 0)];
      Run(m, items, |items|)
        == Some(m.(local := m.local.(usageSets := m.local.usageSets + [usages]), offset := m.offset + 5 * |items|))
  {
    hide Run, Step, Word;
    var l, n := m.local, |m.local.usageSets|;
    var opening, closing := [Word(DELIMITER, 1)], [Word(DELIMITER, 0)];
    var l1: Local := l.(delimiterOpen := true, usageSets := l.usageSets + [[]], activeSet := n);
    var l2: Local := l1.(usageSets := l.usageSets + [usages]);
    var m1 := m.(local := l1, offset := m.offset + 5);
    var m2 := m1.(local := l2, offset := m.offset + 5 + 5 * |usages|);
    LocalWord(m, DELIMITER, 1, l1);
    RunStart(m, opening);
    RunNext(m, opening, 0, m, m1);
    AllUsagesRun(m1, usages);
    assert [] + usages == usages;
    assert l1.usageSets[n := usages] == l.usageSets + [usages];
    RunConcat(m, opening, UsageItems(usages));
    var l3: Local := l.(usageSets := l.usageSets + [usages]);
    LocalWord(m2, DELIMITER, 0, l3);
    RunStart(m2, closing);
    RunNext(m2, closing, 0, m2, m2.(local := l3, offset := m2.offset + 5));
    RunConcat(m, opening + UsageItems(usages), closing);
  }

  lemma {:induction false} SetsRun(m: Machine, sets: seq<seq<Usage>>, n: nat)
    requires n <= |sets| && m.local.activeSet == 0 && !m.local.delimiterOpen
    ensures var items := SetItems(sets, n);
      Run(m, items, |items|)
        == Some(m.(local := m.local.(usageSets := m.local.usageSets + sets[..n]), offset := m.offset + 5 * |items|))
  {
    hide Run, Word;
    if n == 0 {
      RunStart(m, []);
      assert m.local.usageSets + sets[..0] == m.local.usageSets;
    } else {
      SetsRun(m, sets, n - 1);
      var before, one := SetItems(sets, n - 1), [Word(DELIMITER, 1)] + UsageItems(sets[n - 1]) + [Word(DELIMITER, 0)];
      var a := m.(local := m.local.(usageSets := m.local.usageSets + sets[..n - 1]), offset := m.offset + 5 * |before|);
      OneSetRun(a, sets[n - 1]);
      RunConcat(m, before, one);
      assert m.local.usageSets + sets[..n] == (m.local.usageSets + sets[..n - 1]) + [sets[n - 1]];
    }
  }

  lemma OptionalRun(m: Machine, present: bool, tag: Tag, v: int, l: Local)
    requires present ==> IsLocalItem(tag) && SetLocal(m.local, m.global.usagePage, tag, 4, v % 0x1_0000_0000) == Some(l)
    requires !present ==> l == m.local
    ensures var items := Optional(present, tag, v);
      Run(m, items, |items|) == Some(m.(local := l, offset := m.offset + 5 * |items|))
  {
    hide Run, Step, Word, SetLocal;
    var items := Optional(present, tag, v);
    RunStart(m, items);
    if present {
      LocalWord(m, tag, v, l);
      RunNext(m, items, 0, m, m.(local := l, offset := m.offset + 5));
    }
  }

  lemma UsageBounds(l: Local, page: uint16, u: Usage)
    ensures SetLocal(l, page, USAGE_MINIMUM, 4, (u.page * 0x1_0000 + u.usage) % 0x1_0000_0000)
      == Some(l.(usageMinimum := u, hasUsageMinimum := true))
    ensures SetLocal(l, page, USAGE_MAXIMUM, 4, (u.page * 0x1_0000 + u.usage) % 0x1_0000_0000)
      == Some(l.(usageMaximum := u, hasUsageMaximum := true))
  {
    hide DecodeUsage;
    UsageDecodes(u, page);
  }

  lemma UsageRangeRun(m: Machine, f: Field)
    requires !m.local.hasUsageMinimum && !m.local.hasUsageMaximum
    requires m.local.usageMinimum == NO_USAGE && m.local.usageMaximum == NO_USAGE
    ensures var items := UsageRangeItems(f);
      Run(m, items, |items|)
        == Some(m.(local := m.local.(usageMinimum := f.usageMinimum, usageMaximum := f.usageMaximum,
                                     hasUsageMinimum := HasMinimum(f), hasUsageMaximum := HasMaximum(f)),
                   offset := m.offset + 5 * |items|))
  {
    hide Run, Step, Word, Optional, SetLocal;
    var low, high := f.usageMinimum, f.usageMaximum;
    var lowest, highest := low.page * 0x1_0000 + low.usage, high.page * 0x1_0000 + high.usage;
    var l1: Local := m.local.(usageMinimum := low, hasUsageMinimum := HasMinimum(f));
    var l2: Local := l1.(usageMaximum := high, hasUsageMaximum := HasMaximum(f));
    var first, second := Optional(HasMinimum(f), USAGE_MINIMUM, lowest),
      Optional(HasMaximum(f), USAGE_MAXIMUM, highest);
    var m1 := m.(local := l1, offset := m.offset + 5 * |first|);
    UsageBounds(m.local, m.global.usagePage, low);
    UsageBounds(l1, m.global.usagePage, high);
    OptionalRun(m, HasMinimum(f), USAGE_MINIMUM, lowest, l1);
    OptionalRun(m1, HasMaximum(f), USAGE_MAXIMUM, highest, l2);
    RunConcat(m, first, second);
  }

  // ---------- string and designator items ----------

  function IndicesIn(l: Local, tags: IndexTags): IndexItems {
    if tags == STRING_TAGS then l.strings else l.designators
  }

  function WithIndices(l: Local, tags: IndexTags, x: IndexItems): Local {
    if tags == STRING_TAGS then l.(strings := x) else l.(designators := x)
  }

  function ItemsOf(x: Indices): IndexItems {
    IndexItems(x.list, x.minimum, x.maximum, x.hasRange || x.minimum != 0, x.hasRange || x.maximum != 0)
  }

  lemma {:induction false} ListRun(m: Machine, tags: IndexTags, list: seq<uint32>, n: nat)
    requires (tags == STRING_TAGS || tags == DESIGNATOR_TAGS) && n <= |list| && IndicesIn(m.local, tags) == NO_INDICES
    ensures Run(m, ListItems(tags.index, list), n)
      == Some(m.(local := WithIndices(m.local, tags, NO_INDICES.(list := list[..n])), offset := m.offset + 5 * n))
  {
    hide Step, Word;
    if n > 0 {
      ListRun(m, tags, list, n - 1);
      assert list[..n] == list[..n - 1] + [list[n - 1]];
      LocalWord(m.(local := WithIndices(m.local, tags, NO_INDICES.(list := list[..n - 1])),
                   offset := m.offset + 5 * (n - 1)),
                tags.index, list[n - 1], WithIndices(m.local, tags, NO_INDICES.(list := list[..n])));
    }
  }

  lemma IndexRangeRun(m: Machine, tags: IndexTags, x: Indices)
    requires tags == STRING_TAGS || tags == DESIGNATOR_TAGS
    requires IndicesIn(m.local, tags) == NO_INDICES.(list := x.list)
    ensures var items := IndexRangeItems(tags, x);
      Run(m, items, |items|)
        == Some(m.(local := WithIndices(m.local, tags, ItemsOf(x)), offset := m.offset + 5 * |items|))
  {
    hide Run, Step, Word, Optional;
    var low, high := x.hasRange || x.minimum != 0, x.hasRange || x.maximum != 0;
    var first, second := Optional(low, tags.minimum, x.minimum), Optional(high, tags.maximum, x.maximum);
    var l1 := WithIndices(m.local, tags, IndexItems(x.list, x.minimum, 0, low, false));
    var m1 := m.(local := l1, offset := m.offset + 5 * |first|);
    OptionalRun(m, low, tags.minimum, x.minimum, l1);
    OptionalRun(m1, high, tags.maximum, x.maximum, WithIndices(m.local, tags, ItemsOf(x)));
    RunConcat(m, first, second);
  }

  lemma IndicesRun(m: Machine, tags: IndexTags, x: Indices)
    requires (tags == STRING_TAGS || tags == DESIGNATOR_TAGS) && IndicesIn(m.local, tags) == NO_INDICES
    ensures var items := ListItems(tags.index, x.list) + IndexRangeItems(tags, x);
      Run(m, items, |items|)
        == Some(m.(local := WithIndices(m.local, tags, ItemsOf(x)), offset := m.offset + 5 * |items|))
  {
    hide Run, Word;
    var n := |x.list|;
    ListRun(m, tags, x.list, n);
    assert x.list[..n] == x.list;
    var a := m.(local := WithIndices(m.local, tags, NO_INDICES.(list := x.list)), offset := m.offset + 5 * n);
    IndexRangeRun(a, tags, x);
    RunConcat(m, ListItems(tags.index, x.list), IndexRangeItems(tags, x));
  }

  // ---------- whole parts ----------

  function LocalOf(f: Field): Local {
    LocalItems([f.usages] + f.alternatives, 0, f.usageMinimum, f.usageMaximum, HasMinimum(f), HasMaximum(f),
               ItemsOf(f.designators), ItemsOf(f.strings), false)
  }

  lemma UsageSetsRun(m: Machine, usages: seq<Usage>, sets: seq<seq<Usage>>)
    requires m.local == NO_LOCALS
    ensures var items := UsageItems(usages) + SetItems(sets, |sets|);
      Run(m, items, |items|)
        == Some(m.(local := NO_LOCALS.(usageSets := [usages] + sets), offset := m.offset + 5 * |items|))
  {
    hide Run, UsageItems, SetItems;
    var first: Local := NO_LOCALS.(usageSets := [usages]);
    AllUsagesRun(m, usages);
    assert [] + usages == usages;
    assert [[]][0 := usages] == [usages];
    var a := m.(local := first, offset := m.offset + 5 * |usages|);
    SetsRun(a, sets, |sets|);
    assert sets[..|sets|] == sets;
    RunConcat(m, UsageItems(usages), SetItems(sets, |sets|));
  }

  /** The local items of a field set every local value that the field needs. */
  lemma LocalsRun(m: Machine, f: Field)
    requires m.local == NO_LOCALS
    ensures var items := LocalsOf(f);
      Run(m, items, |items|) == Some(m.(local := LocalOf(f), offset := m.offset + 5 * |items|))
  {
    hide Run, UsageItems, SetItems, UsageRangeItems, ListItems, IndexRangeItems;
    var sets, bounds := UsageItems(f.usages) + SetItems(f.alternatives, |f.alternatives|), UsageRangeItems(f);
    var designators := ListItems(DESIGNATOR_TAGS.index, f.designators.list)
      + IndexRangeItems(DESIGNATOR_TAGS, f.designators);
    var strings := ListItems(STRING_TAGS.index, f.strings.list) + IndexRangeItems(STRING_TAGS, f.strings);
    var l1: Local := NO_LOCALS.(usageSets := [f.usages] + f.alternatives);
    var l2: Local := l1.(usageMinimum := f.usageMinimum, usageMaximum := f.usageMaximum,
                         hasUsageMinimum := HasMinimum(f), hasUsageMaximum := HasMaximum(f));
    var l3: Local := l2.(designators := ItemsOf(f.designators));
    var m1 := m.(local := l1, offset := m.offset + 5 * |sets|);
    var m2 := m.(local := l2, offset := m1.offset + 5 * |bounds|);
    var m3 := m.(local := l3, offset := m2.offset + 5 * |designators|);
    UsageSetsRun(m, f.usages, f.alternatives);
    UsageRangeRun(m1, f);
    RunConcat(m, sets, bounds);
    IndicesRun(m2, DESIGNATOR_TAGS, f.designators);
    RunConcat(m, sets + bounds, designators);
    IndicesRun(m3, STRING_TAGS, f.strings);
    RunConcat(m, sets + bounds + designators, strings);
  }

  /** The machine stands where the description does, between two parts. */
  ghost predicate At(m: Machine, site: Site) {
    && m.collectionStack == site.stack && m.schema == site.schema && m.local == NO_LOCALS
    && m.global == INITIAL_GLOBAL && m.globalStack == []
  }

  ghost predicate Follows(result: Option<Machine>, site: Option<Site>) {
    (result.Some? <==> site.Some?) && (result.Some? ==> At(result.value, site.value))
  }

  /** The machine behind a Main item, in front of the Pop that belongs to the field. */
  ghost predicate Restorable(result: Option<Machine>, site: Option<Site>) {
    && (result.Some? <==> site.Some?)
    && (result.Some? ==>
          var m := result.value;
          && m.collectionStack == site.value.stack && m.schema == site.value.schema && m.local == NO_LOCALS
          && m.globalStack == [INITIAL_GLOBAL])
  }

  lemma FieldMade(m: Machine, f: Field, bitOffset: nat)
    requires Printable(Leaf(f)) && m.global == GlobalOf(0, f) && m.local == LocalOf(f)
    requires |m.schema.fields| < MAX_FIELDS
    ensures NewField(m, f.kind, f.flags, bitOffset)
      == f.(id := |m.schema.fields|, collectionId := Top(m.collectionStack), bitOffset := bitOffset)
  {
    hide RangeOk;
    assert ([f.usages] + f.alternatives)[1..] == f.alternatives;
  }

  lemma FieldPlaced(m: Machine, site: Site, f: Field)
    requires Printable(Leaf(f)) && m.global == GlobalOf(0, f) && m.local == LocalOf(f)
    requires m.collectionStack == site.stack && m.globalStack == [INITIAL_GLOBAL] && m.schema == Noted(site.schema, f)
    ensures Restorable(AddField(m, f.kind, f.flags), PlaceLeaf(site, f))
  {
    hide ReportIndex, RangeOk, IndicesFit, NewField;
    var r := ReportIndex(site.schema.reports, f.kind, f.reportId);
    if |site.schema.fields| < MAX_FIELDS {
      FieldMade(m, f, if r < |site.schema.reports| then site.schema.reports[r].bitSize else 0);
    }
  }

  lemma PushStep(m: Machine)
    requires m.globalStack == []
    ensures Step(m, Word(PUSH, 0)) == Some(m.(globalStack := [m.global], offset := m.offset + 5))
  {
    hide Step, Word;
    WordStep(m, PUSH, 0);
    assert [] + [m.global] == [m.global];
  }

  lemma PopStep(m: Machine)
    requires m.globalStack == [INITIAL_GLOBAL]
    ensures Step(m, Word(POP, 0)) == Some(m.(global := INITIAL_GLOBAL, globalStack := [], offset := m.offset + 5))
  {
    hide Step, Word;
    WordStep(m, POP, 0);
  }

  lemma MainWord(m: Machine, f: Field)
    requires Printable(Leaf(f))
    ensures Step(m, Word(MainTag(f.kind), f.flags))
      == (match AddField(m, f.kind, f.flags) case None => None case Some(m') => Some(m'.(offset := m.offset + 5)))
  {
    hide AddField, Step, Word, RangeOk, IndicesFit;
    WordStep(m, MainTag(f.kind), f.flags);
  }

  lemma OneItemRun(m: Machine, item: Item)
    ensures Run(m, [item], 1) == Step(m, item)
  {
    hide Step;
    RunStart(m, [item]);
  }

  /** All items in front of the Main item of a field. */
  lemma SettingsRun(m: Machine, f: Field)
    requires Printable(Leaf(f)) && m.global == INITIAL_GLOBAL && m.globalStack == [] && m.local == NO_LOCALS
    ensures var items := [Word(PUSH, 0)] + GlobalItems(f) + Optional(f.reportId != 0, REPORT_ID, f.reportId)
      + LocalsOf(f);
      Run(m, items, |items|)
        == Some(m.(globalStack := [INITIAL_GLOBAL], global := GlobalOf(0, f), local := LocalOf(f),
                   schema := Noted(m.schema, f), offset := m.offset + 5 * |items|))
  {
    hide Run, Step, Word, GlobalItems, LocalsOf, Optional, RangeOk, IndicesFit, LocalOf;
    var push, globals, locals := [Word(PUSH, 0)], GlobalItems(f), LocalsOf(f);
    var id := Optional(f.reportId != 0, REPORT_ID, f.reportId);
    var m1 := m.(globalStack := [INITIAL_GLOBAL], offset := m.offset + 5);
    var m2 := m1.(global := GlobalOf(0, f).(reportId := 0), offset := m1.offset + 50);
    var m3 := m2.(global := GlobalOf(0, f), schema := Noted(m.schema, f), offset := m2.offset + 5 * |id|);
    PushStep(m);
    OneItemRun(m, Word(PUSH, 0));
    GlobalsRun(m1, f);
    RunConcat(m, push, globals);
    ReportIdRun(m2, f);
    RunConcat(m, push + globals, id);
    LocalsRun(m3, f);
    RunConcat(m, push + globals + id, locals);
  }

  lemma LeafRun(m: Machine, site: Site, f: Field)
    requires At(m, site) && Printable(Leaf(f))
    ensures Follows(Run(m, PartItems(Leaf(f)), |PartItems(Leaf(f))|), Place(site, Leaf(f)))
  {
    hide Run, Step, Word, GlobalItems, LocalsOf, Optional, RangeOk, IndicesFit, AddField, PlaceLeaf, LocalOf, GlobalOf,
         Noted;
    var settings := [Word(PUSH, 0)] + GlobalItems(f) + Optional(f.reportId != 0, REPORT_ID, f.reportId) + LocalsOf(f);
    var last, pop := Word(MainTag(f.kind), f.flags), Word(POP, 0);
    var m1 := m.(globalStack := [INITIAL_GLOBAL], global := GlobalOf(0, f), local := LocalOf(f),
                 schema := Noted(m.schema, f), offset := m.offset + 5 * |settings|);
    SettingsRun(m, f);
    OneItemRun(m1, last);
    MainWord(m1, f);
    FieldPlaced(m1, site, f);
    RunConcat(m, settings, [last]);
    if PlaceLeaf(site, f).Some? {
      var m2 := Run(m, settings + [last], |settings + [last]|).value;
      PopStep(m2);
      OneItemRun(m2, pop);
    }
    RunConcat(m, settings + [last], [pop]);
  }

  lemma CollectionPlaced(m: Machine, site: Site, kind: uint8, usages: seq<Usage>, aliases: seq<seq<Usage>>)
    requires m.collectionStack == site.stack && m.schema == site.schema
    requires m.global == INITIAL_GLOBAL && m.globalStack == []
    requires m.local == NO_LOCALS.(usageSets := [usages] + aliases)
    ensures Follows(OpenCollection(m, kind), Place(site, Open(kind, usages, aliases)))
  {
    hide Flatten;
    assert ([usages] + aliases)[1..] == aliases;
  }

  lemma OpenRun(m: Machine, site: Site, part: Part)
    requires At(m, site) && part.Open?
    ensures Follows(Run(m, PartItems(part), |PartItems(part)|), Place(site, part))
  {
    hide Run, Step, Word, UsageItems, SetItems, OpenCollection, Place;
    var sets, last := UsageItems(part.usages) + SetItems(part.aliases, |part.aliases|), Word(COLLECTION, part.kind);
    UsageSetsRun(m, part.usages, part.aliases);
    var m1 := m.(local := NO_LOCALS.(usageSets := [part.usages] + part.aliases), offset := m.offset + 5 * |sets|);
    RunConcat(m, sets, [last]);
    OneItemRun(m1, last);
    WordStep(m1, COLLECTION, part.kind);
    CollectionPlaced(m1, site, part.kind, part.usages, part.aliases);
  }

  lemma CloseRun(m: Machine, site: Site)
    requires At(m, site)
    ensures Follows(Run(m, PartItems(Close), |PartItems(Close)|), Place(site, Close))
  {
    hide Run, Step, Word;
    OneItemRun(m, Word(END_COLLECTION, 0));
    WordStep(m, END_COLLECTION, 0);
  }

  lemma {:induction false} PrintRun(parts: seq<Part>, n: nat)
    requires n <= |parts| && forall i | 0 <= i < |parts| :: Printable(parts[i])
    ensures Follows(Run(INITIAL, Print(parts, n), |Print(parts, n)|), Build(parts, n))
  {
    hide Run, PartItems, Place, Printable;
    if n == 0 {
      RunStart(INITIAL, []);
    } else {
      PrintRun(parts, n - 1);
      RunConcat(INITIAL, Print(parts, n - 1), PartItems(parts[n - 1]));
      if Build(parts, n - 1).Some? {
        var m, site := Run(INITIAL, Print(parts, n - 1), |Print(parts, n - 1)|).value, Build(parts, n - 1).value;
        match parts[n - 1] {
          case Leaf(f) => LeafRun(m, site, f);
          case Open(_, _, _) => OpenRun(m, site, parts[n - 1]);
          case Close => CloseRun(m, site);
        }
      }
    }
  }

  // ---------- the round trip ----------

  lemma LegalConcat(a: seq<Item>, b: seq<Item>)
    requires AllLegal(a) && AllLegal(b)
    ensures AllLegal(a + b)
  {
  }

  lemma {:induction false} SetsLegal(sets: seq<seq<Usage>>, n: nat)
    requires n <= |sets|
    ensures AllLegal(SetItems(sets, n))
  {
    hide Word, Legal;
    if n > 0 {
      SetsLegal(sets, n - 1);
      UsagesLegal(sets[n - 1]);
      WordIsLegal(DELIMITER, 1);
      WordIsLegal(DELIMITER, 0);
    }
  }

  lemma UsagesLegal(usages: seq<Usage>)
    ensures AllLegal(UsageItems(usages))
  {
    hide Word, Legal;
    forall i | 0 <= i < |usages|
      ensures Legal(UsageItems(usages)[i])
    {
      WordIsLegal(USAGE, usages[i].page * 0x1_0000 + usages[i].usage);
    }
  }

  lemma OptionalLegal(present: bool, tag: Tag, v: int)
    ensures AllLegal(Optional(present, tag, v))
  {
    hide Word, Legal;
    WordIsLegal(tag, v);
  }

  lemma IndicesLegal(tags: IndexTags, x: Indices)
    ensures AllLegal(ListItems(tags.index, x.list) + IndexRangeItems(tags, x))
  {
    hide Word, Legal;
    forall i | 0 <= i < |x.list|
      ensures Legal(ListItems(tags.index, x.list)[i])
    {
      WordIsLegal(tags.index, x.list[i]);
    }
    OptionalLegal(x.hasRange || x.minimum != 0, tags.minimum, x.minimum);
    OptionalLegal(x.hasRange || x.maximum != 0, tags.maximum, x.maximum);
  }

  lemma GlobalsLegal(f: Field)
    ensures AllLegal(GlobalItems(f))
  {
    hide Word, Legal;
    forall k | 0 <= k < 10
      ensures Legal(GlobalItems(f)[k])
    {
      GlobalIsLegal(f, k);
    }
  }

  lemma GlobalIsLegal(f: Field, k: nat)
    ensures Legal(GlobalItem(f, k))
  {
    hide Word, Legal;
    WordIsLegal(LOGICAL_MINIMUM, Provisional(f.logical).minimum);
    WordIsLegal(LOGICAL_MINIMUM, f.logical.minimum);
    WordIsLegal(LOGICAL_MAXIMUM, f.logical.maximum);
    WordIsLegal(PHYSICAL_MINIMUM, Provisional(f.physical).minimum);
    WordIsLegal(PHYSICAL_MINIMUM, f.physical.minimum);
    WordIsLegal(PHYSICAL_MAXIMUM, f.physical.maximum);
    WordIsLegal(UNIT_EXPONENT, f.unitExponent);
    WordIsLegal(UNIT, f.unit);
    WordIsLegal(REPORT_SIZE, f.reportSize);
    WordIsLegal(REPORT_COUNT, f.reportCount);
  }

  lemma LocalsLegal(f: Field)
    ensures AllLegal(LocalsOf(f))
  {
    hide Word, Legal, UsageItems, SetItems, ListItems, IndexRangeItems, Optional;
    UsagesLegal(f.usages);
    SetsLegal(f.alternatives, |f.alternatives|);
    OptionalLegal(HasMinimum(f), USAGE_MINIMUM, f.usageMinimum.page * 0x1_0000 + f.usageMinimum.usage);
    OptionalLegal(HasMaximum(f), USAGE_MAXIMUM, f.usageMaximum.page * 0x1_0000 + f.usageMaximum.usage);
    IndicesLegal(DESIGNATOR_TAGS, f.designators);
    IndicesLegal(STRING_TAGS, f.strings);
  }

  lemma PartLegal(part: Part)
    ensures AllLegal(PartItems(part))
  {
    hide Word, Legal, GlobalItems, LocalsOf, UsageItems, SetItems, Optional;
    match part
    case Leaf(f) =>
      WordIsLegal(PUSH, 0);
      GlobalsLegal(f);
      OptionalLegal(f.reportId != 0, REPORT_ID, f.reportId);
      LocalsLegal(f);
      WordIsLegal(MainTag(f.kind), f.flags);
      WordIsLegal(POP, 0);
    case Open(kind, usages, aliases) =>
      UsagesLegal(usages);
      SetsLegal(aliases, |aliases|);
      WordIsLegal(COLLECTION, kind);
    case Close => WordIsLegal(END_COLLECTION, 0);
  }

  lemma {:induction false} PrintLegal(parts: seq<Part>, n: nat)
    requires n <= |parts|
    ensures AllLegal(Print(parts, n))
  {
    hide PartItems, Legal, AllLegal;
    if n == 0 {
      EncodeAllEmpty([]);
    } else {
      PrintLegal(parts, n - 1);
      PartLegal(parts[n - 1]);
      LegalConcat(Print(parts, n - 1), PartItems(parts[n - 1]));
    }
  }

  /** Round trip of descriptors, whatever their length: the printed bytes are whole items again, and the
      compiler's loop and final checks read back exactly what was described, or refuse it exactly when
      the description breaks a limit or the nesting. The only thing that the compiler adds is the limit
      on the number of bytes. */
  lemma PrintedDescriptorReadsBack(parts: seq<Part>)
    requires forall i | 0 <= i < |parts| :: Printable(parts[i])
    ensures var items := Print(parts, |parts|); var data := EncodeAll(items);
      && Tokenise(data) == Some(items) && Interpret(items) == Described(parts)
      && Compile(data) == (if |data| > MAX_DESCRIPTOR_BYTES then None else Described(parts))
  {
    hide Run, Print, Build, Printable, EncodeAll, Tokenise, AllLegal;
    var items := Print(parts, |parts|);
    PrintLegal(parts, |parts|);
    TokeniseEncoded(items);
    PrintRun(parts, |parts|);
    if EncodeAll(items) == [] {
      NothingPrinted(items);
    }
  }

  lemma NothingPrinted(items: seq<Item>)
    requires EncodeAll(items) == []
    ensures Run(INITIAL, items, |items|) == Some(INITIAL)
  {
    if items != [] {
      ItemsTakeBytes(items);
    }
  }

  lemma ItemsTakeBytes(items: seq<Item>)
    requires items != []
    ensures EncodeAll(items) != []
  {
    assert |Encode(items[0])| > 0;
  }
}
