/** The schema that a report descriptor compiles to (hid_parser.h): reports, their
    bit-positioned fields and the collection forest, with the parser's limits. */
module HidSchema {
  import opened Integers

  const MAX_DESCRIPTOR_BYTES := 4096
  const MAX_REPORTS := 64
  const MAX_FIELDS := 512
  const MAX_COLLECTIONS := 128
  const MAX_COLLECTION_DEPTH := 32
  const MAX_GLOBAL_STACK_DEPTH := 16
  const MAX_REPORT_BITS := 32768
  const MAX_REPORT_COUNT := 4096

  const NO_PARENT: uint16 := 0xFFFF
  const APPLICATION: uint8 := 0x01

  datatype Usage = Usage(usage: uint16, page: uint16)

  const NO_USAGE := Usage(0, 0)

  /** The ordering of HIDUsage: by page, then by usage. */
  predicate UsageLess(a: Usage, b: Usage) {
    a.page < b.page || (a.page == b.page && a.usage < b.usage)
  }

  datatype ReportKind = Input | Output | Feature

  datatype Range = Range(minimum: int, maximum: int)

  datatype Collection = Collection(id: uint16, parent: uint16, kind: uint8, usage: Usage, aliases: seq<Usage>)

  /** String or designator indices; no decoder reads them. */
  datatype Indices = Indices(list: seq<uint32>, minimum: uint32, maximum: uint32, hasRange: bool)

  datatype Field = Field(
    id: uint16, kind: ReportKind, reportId: uint8, collectionId: uint16,
    bitOffset: nat, reportSize: nat, reportCount: nat, flags: nat,
    logical: Range, physical: Range, unitExponent: int, unit: uint32,
    usages: seq<Usage>, alternatives: seq<seq<Usage>>,
    usageMinimum: Usage, usageMaximum: Usage, hasUsageRange: bool,
    strings: Indices, designators: Indices)
  {
    predicate IsConstant() { flags % 2 == 1 }

    predicate IsVariable() { (flags / 2) % 2 == 1 }

    predicate IsRelative() { (flags / 4) % 2 == 1 }

    predicate IsSigned() { logical.minimum < 0 }

    /** First bit behind the field. */
    function End(): nat { bitOffset + reportSize * reportCount }

    function Position(index: nat): nat { bitOffset + index * reportSize }

    /** `usage_at`: explicit usages first, then the repeated last one, then the usage range. */
    function UsageAt(index: nat, repeatLast: bool): Usage {
      if index < |usages| then usages[index]
      else if repeatLast && usages != [] then usages[|usages| - 1]
      else if hasUsageRange && usageMinimum.page == usageMaximum.page
              && usageMaximum.usage >= usageMinimum.usage
              && index <= usageMaximum.usage - usageMinimum.usage
      then Usage(usageMinimum.usage + index, usageMinimum.page)
      else NO_USAGE
    }
  }

  datatype Report = Report(kind: ReportKind, reportId: uint8, bitSize: nat, fieldIds: seq<nat>)
  {
    function ByteSize(): nat { (bitSize + 7) / 8 }
  }

  datatype Diagnostic =
    | LongItem(offset: nat, tag: uint8, size: nat)
    | UnknownItem(offset: nat, prefix: uint8, raw: uint32)
    | OpenPush(offset: nat)

  datatype Schema = Schema(
    reports: seq<Report>, fields: seq<Field>, collections: seq<Collection>,
    diagnostics: seq<Diagnostic>, usesReportIds: bool)

  const EMPTY_SCHEMA := Schema([], [], [], [], false)

  /** Index of the report with the given kind and id, or |reports| when there is none. */
  function ReportIndex(reports: seq<Report>, kind: ReportKind, id: uint8, start: nat := 0): (i: nat)
    requires start <= |reports|
    ensures start <= i <= |reports|
    ensures i < |reports| ==> reports[i].kind == kind && reports[i].reportId == id
    ensures forall j | start <= j < i :: !(reports[j].kind == kind && reports[j].reportId == id)
    decreases |reports| - start
  {
    if start == |reports| || (reports[start].kind == kind && reports[start].reportId == id) then start
    else ReportIndex(reports, kind, id, start + 1)
  }

  ghost predicate UniqueReports(reports: seq<Report>) {
    forall i, j | 0 <= i < j < |reports| ::
      !(reports[i].kind == reports[j].kind && reports[i].reportId == reports[j].reportId)
  }

  predicate Describes(fields: seq<Field>, report: Report, id: nat) {
    id < |fields| && fields[id].kind == report.kind && fields[id].reportId == report.reportId
  }

  /** The report's fields follow each other from bit 0 to its end without gap or overlap. */
  ghost predicate Tiled(fields: seq<Field>, report: Report) {
    var ids := report.fieldIds;
    && ids != []
    && (forall i | 0 <= i < |ids| :: Describes(fields, report, ids[i]))
    && fields[ids[0]].bitOffset == 0
    && (forall i, j | 0 <= i && j == i + 1 && j < |ids| ::
          ids[i] < ids[j] && fields[ids[j]].bitOffset == fields[ids[i]].End())
    && report.bitSize == fields[ids[|ids| - 1]].End() <= MAX_REPORT_BITS
  }

  ghost predicate FieldOk(schema: Schema, index: nat)
    requires index < |schema.fields|
  {
    var field := schema.fields[index];
    && field.id == index
    && 1 <= field.reportSize <= 32
    && 1 <= field.reportCount <= MAX_REPORT_COUNT
    && field.flags < 0x200
    && (field.collectionId == NO_PARENT || field.collectionId < |schema.collections|)
    && RangeOk(field.logical)
    && exists r :: 0 <= r < |schema.reports| && index in schema.reports[r].fieldIds
  }

  predicate RangeOk(range: Range) {
    && -0x8000_0000 <= range.minimum < 0x8000_0000
    && -0x8000_0000 <= range.maximum < 0x1_0000_0000
  }

  predicate CollectionOk(collections: seq<Collection>, index: nat)
    requires index < |collections|
  {
    collections[index].id == index && (collections[index].parent == NO_PARENT || collections[index].parent < index)
  }

  ghost predicate WellFormed(schema: Schema) {
    && |schema.reports| <= MAX_REPORTS
    && |schema.fields| <= MAX_FIELDS
    && |schema.collections| <= MAX_COLLECTIONS
    && UniqueReports(schema.reports)
    && (forall r | 0 <= r < |schema.reports| :: Tiled(schema.fields, schema.reports[r]))
    && (forall f | 0 <= f < |schema.fields| :: FieldOk(schema, f))
    && (forall c | 0 <= c < |schema.collections| :: CollectionOk(schema.collections, c))
  }

  /** How many collections lie around an element of collection `c`, itself included. */
  function CollectionDepth(collections: seq<Collection>, c: nat): nat
    decreases c
  {
    if c >= |collections| then 0
    else if collections[c].parent != NO_PARENT && collections[c].parent < c
    then 1 + CollectionDepth(collections, collections[c].parent)
    else 1
  }

  /** The collection forest is at most 32 collections deep. */
  ghost predicate DepthLimited(schema: Schema) {
    forall c | 0 <= c < |schema.collections| :: CollectionDepth(schema.collections, c) <= MAX_COLLECTION_DEPTH
  }

  lemma {:induction false} DepthStays(collections: seq<Collection>, more: Collection, c: nat)
    requires c < |collections|
    ensures CollectionDepth(collections + [more], c) == CollectionDepth(collections, c)
    decreases c
  {
    if collections[c].parent != NO_PARENT && collections[c].parent < c {
      DepthStays(collections, more, collections[c].parent);
    }
  }

  /** Fields of one report keep their listed order: an earlier one ends before a later one starts. */
  lemma {:induction false} FieldsOrdered(fields: seq<Field>, report: Report, i: nat, j: nat)
    requires Tiled(fields, report) && i < j < |report.fieldIds|
    ensures report.fieldIds[i] < report.fieldIds[j]
    ensures fields[report.fieldIds[i]].End() <= fields[report.fieldIds[j]].bitOffset
    decreases j
  {
    if i + 1 < j {
      FieldsOrdered(fields, report, i, j - 1);
      var m := report.fieldIds[j - 1];
      assert fields[report.fieldIds[j]].bitOffset == fields[m].End() >= fields[m].bitOffset;
    }
  }

  lemma {:induction false} FieldBeforeEnd(fields: seq<Field>, report: Report, i: nat)
    requires Tiled(fields, report) && i < |report.fieldIds|
    ensures fields[report.fieldIds[i]].End() <= report.bitSize
  {
    if i + 1 < |report.fieldIds| {
      FieldsOrdered(fields, report, i, |report.fieldIds| - 1);
    }
  }

  ghost predicate Covers(fields: seq<Field>, report: Report, i: nat, bit: nat)
    requires Tiled(fields, report)
  {
    i < |report.fieldIds| && fields[report.fieldIds[i]].bitOffset <= bit < fields[report.fieldIds[i]].End()
  }

  /** Every bit of a report belongs to exactly one of its fields. */
  lemma EveryBitHasOneField(fields: seq<Field>, report: Report, bit: nat)
    requires Tiled(fields, report) && bit < report.bitSize
    ensures exists i :: Covers(fields, report, i, bit)
    ensures forall i, j | Covers(fields, report, i, bit) && Covers(fields, report, j, bit) :: i == j
  {
    var i := 0;
    while fields[report.fieldIds[i]].End() <= bit
      invariant i < |report.fieldIds| && fields[report.fieldIds[i]].bitOffset <= bit
      decreases |report.fieldIds| - i
    {
      i := i + 1;
    }
    assert Covers(fields, report, i, bit);
    forall a, b | Covers(fields, report, a, bit) && Covers(fields, report, b, bit)
      ensures a == b
    {
      if a < b {
        FieldsOrdered(fields, report, a, b);
      } else if b < a {
        FieldsOrdered(fields, report, b, a);
      }
    }
  }

  /** Each field is listed by exactly one report, in one place, and that report has its kind and id. */
  lemma FieldListedOnce(schema: Schema, f: nat)
    requires WellFormed(schema) && f < |schema.fields|
    ensures exists r :: 0 <= r < |schema.reports| && f in schema.reports[r].fieldIds
    ensures forall r, i | 0 <= r < |schema.reports| && 0 <= i < |schema.reports[r].fieldIds|
      && schema.reports[r].fieldIds[i] == f ::
        r == ReportIndex(schema.reports, schema.fields[f].kind, schema.fields[f].reportId)
    ensures forall r, i, j | 0 <= r < |schema.reports| && 0 <= i < j < |schema.reports[r].fieldIds| ::
      schema.reports[r].fieldIds[i] != schema.reports[r].fieldIds[j]
  {
    assert FieldOk(schema, f);
    forall r, i | 0 <= r < |schema.reports| && 0 <= i < |schema.reports[r].fieldIds|
      && schema.reports[r].fieldIds[i] == f
      ensures r == ReportIndex(schema.reports, schema.fields[f].kind, schema.fields[f].reportId)
    {
      assert Tiled(schema.fields, schema.reports[r]);
      assert Describes(schema.fields, schema.reports[r], f);
    }
    forall r, i, j | 0 <= r < |schema.reports| && 0 <= i < j < |schema.reports[r].fieldIds|
      ensures schema.reports[r].fieldIds[i] != schema.reports[r].fieldIds[j]
    {
      assert Tiled(schema.fields, schema.reports[r]);
      FieldsOrdered(schema.fields, schema.reports[r], i, j);
    }
  }

  /** `a` is `c` or a transitive parent of it. */
  ghost predicate IsAncestor(collections: seq<Collection>, a: nat, c: nat)
    requires forall i | 0 <= i < |collections| :: CollectionOk(collections, i)
    decreases c
  {
    c < |collections| && (a == c ||
      (collections[c].parent != NO_PARENT && assert CollectionOk(collections, c);
       IsAncestor(collections, a, collections[c].parent)))
  }

  /** The nearest application collection around `c`: parents have smaller ids than their
      children, so the nearest one is the largest. */
  ghost predicate NearestApplication(collections: seq<Collection>, a: nat, c: nat)
    requires forall i | 0 <= i < |collections| :: CollectionOk(collections, i)
  {
    && IsAncestor(collections, a, c) && a < |collections| && collections[a].kind == APPLICATION
    && forall b: nat | IsAncestor(collections, b, c) && b < |collections| && collections[b].kind == APPLICATION ::
         b <= a
  }

  /** The loop of `application_usage` as a function. It is total even over parents that do not
      descend, where it gives up; CollectionOk rules those out. */
  function ApplicationUsage(collections: seq<Collection>, c: nat): Usage
    decreases c
  {
    if c == NO_PARENT || c >= |collections| then NO_USAGE
    else if collections[c].kind == APPLICATION then collections[c].usage
    else if collections[c].parent < c then ApplicationUsage(collections, collections[c].parent)
    else NO_USAGE
  }

  lemma {:induction false} AncestorsDescend(collections: seq<Collection>, a: nat, c: nat)
    requires forall i | 0 <= i < |collections| :: CollectionOk(collections, i)
    requires IsAncestor(collections, a, c)
    ensures a <= c
    decreases c
  {
    if a != c {
      assert CollectionOk(collections, c);
      AncestorsDescend(collections, a, collections[c].parent);
    }
  }

  /** `application_usage` returns the usage of the nearest enclosing application collection. */
  lemma {:induction false} ApplicationUsageIsNearest(collections: seq<Collection>, c: nat)
    requires |collections| <= MAX_COLLECTIONS
    requires forall i | 0 <= i < |collections| :: CollectionOk(collections, i)
    ensures forall a: nat | NearestApplication(collections, a, c) ::
      ApplicationUsage(collections, c) == collections[a].usage
    ensures (forall a: nat | IsAncestor(collections, a, c) && a < |collections| :: collections[a].kind != APPLICATION)
      ==> ApplicationUsage(collections, c) == NO_USAGE
    decreases c
  {
    if c < |collections| {
      assert CollectionOk(collections, c);
      if collections[c].kind == APPLICATION {
        forall a | NearestApplication(collections, a, c)
          ensures a == c
        {
          assert IsAncestor(collections, c, c);
          AncestorsDescend(collections, a, c);
        }
        assert IsAncestor(collections, c, c);
      } else if collections[c].parent != NO_PARENT {
        var p := collections[c].parent;
        ApplicationUsageIsNearest(collections, p);
        forall a | NearestApplication(collections, a, c)
          ensures NearestApplication(collections, a, p)
        {
          forall b | IsAncestor(collections, b, p)
            ensures IsAncestor(collections, b, c)
          {
          }
        }
        forall a | IsAncestor(collections, a, p)
          ensures IsAncestor(collections, a, c)
        {
        }
      }
    }
  }

  lemma {:induction false} ScalarInsideField(field: Field, index: nat)
    requires index < field.reportCount
    ensures field.bitOffset <= field.Position(index)
    ensures field.Position(index) + field.reportSize <= field.End()
    ensures field.Position(index) + field.reportSize == field.Position(index + 1)
  {
    var n := field.reportCount - index - 1;
    assert field.reportCount * field.reportSize == index * field.reportSize + field.reportSize + n * field.reportSize;
    assert n * field.reportSize >= 0;
    assert index * field.reportSize >= 0;
  }
}
