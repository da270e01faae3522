/** From the values of a report to the emitted values: whole runs of packed reports, with the logical
    range, the usages and the flags written out in terms of the schema's data. */
module HidPacked {
  import opened Integers
  import opened Streams
  import opened Bits
  import opened HidSchema
  import opened HidDecoder
  import opened HidReplay
  import opened HidArrays
  import opened HidIsolation
  import ReportPacking

  // ---------- packing values ----------

  /** The scalars of a field side by side, each in its own width, least significant bit first. */
  function FieldBits(size: nat, values: seq<int>, n: nat): (bits: seq<bool>)
    requires n <= |values|
    ensures |bits| == n * size
  {
    if n == 0 then [] else FieldBits(size, values, n - 1) + ToBits(values[n - 1], size)
  }

  /** The first `n` fields of a report side by side; `values[i]` are those of its field `i`. */
  function ReportBits(fields: seq<Field>, ids: seq<nat>, values: seq<seq<int>>, n: nat): seq<bool>
    requires n <= |ids| == |values| && forall i | 0 <= i < |ids| :: ids[i] < |fields|
  {
    if n == 0 then []
    else
      ReportBits(fields, ids, values, n - 1)
        + FieldBits(fields[ids[n - 1]].reportSize, values[n - 1], |values[n - 1]|)
  }

  function Payload(schema: Schema, r: nat, values: seq<seq<int>>): seq<uint8>
    requires AllLinked(schema) && r < |schema.reports| && |values| == |schema.reports[r].fieldIds|
  {
    BytesOf(ReportBits(schema.fields, schema.reports[r].fieldIds, values, |values|))
  }

  /** A number that the width of a field can hold, signed when the field's range begins below zero. */
  predicate FitsField(field: Field, v: int)
    requires field.reportSize >= 1
  {
    var p := Pow2(field.reportSize - 1);
    if field.logical.minimum < 0 then 0 - p <= v < p else 0 <= v < 2 * p
  }

  /** One value for each scalar of each field of the report. */
  ghost predicate Sendable(schema: Schema, r: nat, values: seq<seq<int>>)
    requires AllLinked(schema) && r < |schema.reports|
  {
    && |values| == |schema.reports[r].fieldIds|
    && forall i | 0 <= i < |values| ::
         && |values[i]| == FieldAt(schema, r, i).reportCount && FieldAt(schema, r, i).reportSize >= 1
         && forall k | 0 <= k < |values[i]| :: FitsField(FieldAt(schema, r, i), values[i][k])
  }

  lemma {:induction false} FieldBitsAt(size: nat, values: seq<int>, n: nat, k: nat)
    requires k < n <= |values|
    ensures 0 <= k * size && k * size + size <= |FieldBits(size, values, n)|
    ensures FieldBits(size, values, n)[k * size..k * size + size] == ToBits(values[k], size)
  {
    hide ToBits;
    var before := FieldBits(size, values, n - 1);
    if k < n - 1 {
      FieldBitsAt(size, values, n - 1, k);
      ReportPacking.SliceOfFirst(before, ToBits(values[n - 1], size), k * size, k * size + size);
    }
  }

  lemma {:induction false} ReportBitsLength(schema: Schema, r: nat, values: seq<seq<int>>, n: nat)
    requires WellFormed(schema) && AllLinked(schema) && r < |schema.reports| && Sendable(schema, r, values)
    requires n <= |values|
    ensures |ReportBits(schema.fields, schema.reports[r].fieldIds, values, n)|
      == if n == 0 then 0 else FieldAt(schema, r, n - 1).End()
  {
    hide WellFormed, FieldBits, FitsField;
    if n > 0 {
      ReportBitsLength(schema, r, values, n - 1);
      FieldStarts(schema, r, n - 1);
    }
  }

  /** A field starts where the one before it ends. */
  lemma FieldStarts(schema: Schema, r: nat, i: nat)
    requires WellFormed(schema) && AllLinked(schema) && r < |schema.reports| && i < |schema.reports[r].fieldIds|
    ensures FieldAt(schema, r, i).bitOffset == if i == 0 then 0 else FieldAt(schema, r, i - 1).End()
  {
    assert Tiled(schema.fields, schema.reports[r]);
  }

  lemma BitsSize(schema: Schema, r: nat, values: seq<seq<int>>)
    requires WellFormed(schema) && AllLinked(schema) && r < |schema.reports| && Sendable(schema, r, values)
    ensures |ReportBits(schema.fields, schema.reports[r].fieldIds, values, |values|)| == schema.reports[r].bitSize
  {
    assert Tiled(schema.fields, schema.reports[r]);
    ReportBitsLength(schema, r, values, |values|);
  }

  lemma {:induction false} ReportBitsAt(schema: Schema, r: nat, values: seq<seq<int>>, n: nat, i: nat, k: nat)
    requires WellFormed(schema) && AllLinked(schema) && r < |schema.reports| && Sendable(schema, r, values)
    requires i < n <= |values| && k < |values[i]|
    ensures var field := FieldAt(schema, r, i);
      var bits := ReportBits(schema.fields, schema.reports[r].fieldIds, values, n);
      && field.Position(k) + field.reportSize <= |bits|
      && bits[field.Position(k)..field.Position(k) + field.reportSize] == ToBits(values[i][k], field.reportSize)
  {
    hide WellFormed, FieldBits, FitsField, ToBits;
    var field := FieldAt(schema, r, i);
    var ids, size, at := schema.reports[r].fieldIds, field.reportSize, field.Position(k);
    var before := ReportBits(schema.fields, ids, values, n - 1);
    var last := FieldBits(FieldAt(schema, r, n - 1).reportSize, values[n - 1], |values[n - 1]|);
    if i < n - 1 {
      ReportBitsAt(schema, r, values, n - 1, i, k);
      ReportPacking.SliceOfFirst(before, last, at, at + size);
    } else {
      ReportBitsLength(schema, r, values, n - 1);
      FieldStarts(schema, r, n - 1);
      FieldBitsAt(size, values[i], |values[i]|, k);
      SliceOfSecond(before, last, k * size, k * size + size);
    }
  }

  lemma SliceOfSecond<T>(a: seq<T>, b: seq<T>, from: nat, end: nat)
    requires from <= end <= |b|
    ensures (a + b)[|a| + from..|a| + end] == b[from..end]
  {
  }

  lemma SliceInFront(data: seq<uint8>, tail: seq<uint8>, offset: nat, size: nat)
    requires offset + size <= 8 * |data|
    ensures BitSlice(data + tail, offset, size) == BitSlice(data, offset, size)
  {
    forall i | 0 <= i < size
      ensures BitSlice(data + tail, offset, size)[i] == BitSlice(data, offset, size)[i]
    {
      var k := offset + i;
      assert (data + tail)[k / 8] == data[k / 8];
      assert BitAt(data + tail, k) == BitAt(data, k);
    }
  }

  /** Every packed value is read back from its place, whatever follows the report. */
  lemma PackedIsRead(schema: Schema, r: nat, values: seq<seq<int>>, tail: seq<uint8>, i: nat, k: nat)
    requires WellFormed(schema) && AllLinked(schema) && r < |schema.reports| && Sendable(schema, r, values)
    requires i < |values| && k < |values[i]|
    ensures var field := FieldAt(schema, r, i);
      ReadField(Payload(schema, r, values) + tail, field.Position(k), field.reportSize, field.logical.minimum < 0)
        == Some(values[i][k])
  {
    hide WellFormed, ReportBits, BytesOf, BitSlice, FromBits, Widen, ToBits;
    FieldAtOk(schema, r, i);
    var field := FieldAt(schema, r, i);
    var bits := ReportBits(schema.fields, schema.reports[r].fieldIds, values, |values|);
    var at, size := field.Position(k), field.reportSize;
    ReportBitsAt(schema, r, values, |values|, i, k);
    ReportPacking.SliceOfBytes(bits, at, size);
    SliceInFront(BytesOf(bits), tail, at, size);
    assert FitsField(field, values[i][k]);
    PackedValueReadsBack(values[i][k], size, field.logical.minimum < 0);
  }

  /** What the decoder makes of a packed value: nothing outside the logical range, the value inside it,
      both ends included. */
  lemma PackedReading(schema: Schema, r: nat, values: seq<seq<int>>, tail: seq<uint8>, i: nat, k: nat)
    requires WellFormed(schema) && AllLinked(schema) && r < |schema.reports| && Sendable(schema, r, values)
    requires i < |values| && k < |values[i]|
    ensures var field, v := FieldAt(schema, r, i), values[i][k];
      Reading(field, k, Payload(schema, r, values) + tail)
        == if field.logical.minimum <= v <= field.logical.maximum then Some(v) else None
  {
    hide WellFormed, Payload, Sendable, ReadField;
    PackedIsRead(schema, r, values, tail, i, k);
  }

  // ---------- runs of packed reports ----------

  /** A report that a peripheral fills in and sends, possibly with bytes behind it; or something that the
      decoder refuses. */
  datatype Sent =
    | Filled(source: Source, report: nat, values: seq<seq<int>>, tail: seq<uint8>)
    | Refused(delivery: Delivery)

  /** The source announces an input report with this id, and is no boot characteristic. */
  predicate Announces(source: Source, id: uint8) {
    && source.uuid != 0x2A22 && source.uuid != 0x2A33 && (source.hasReportType ==> source.reportType == 1)
    && id == if source.hasReportId then source.reportId else 0
  }

  ghost predicate SentOk(schema: Schema, s: Sent)
    requires AllLinked(schema)
  {
    match s
    case Filled(source, r, values, _) =>
      r < |schema.reports| && schema.reports[r].kind == Input && Announces(source, schema.reports[r].reportId)
        && Sendable(schema, r, values)
    case Refused(d) => RouteOf(schema, d.source, d.payload).Reject?
  }

  ghost predicate AllSent(schema: Schema, run: seq<Sent>)
    requires AllLinked(schema)
  {
    forall n | 0 <= n < |run| :: SentOk(schema, run[n])
  }

  function DeliveryOf(schema: Schema, s: Sent): Delivery
    requires AllLinked(schema)
    requires s.Filled? ==> s.report < |schema.reports| && |s.values| == |schema.reports[s.report].fieldIds|
  {
    match s
    case Filled(source, r, values, tail) => Delivery(source, Bytes(Payload(schema, r, values) + tail))
    case Refused(d) => d
  }

  ghost function DeliveriesOf(schema: Schema, run: seq<Sent>): (ds: seq<Delivery>)
    requires AllLinked(schema) && AllSent(schema, run)
    ensures |ds| == |run|
  {
    seq(|run|, n requires 0 <= n < |run| => assert SentOk(schema, run[n]); DeliveryOf(schema, run[n]))
  }

  lemma PayloadSize(schema: Schema, r: nat, values: seq<seq<int>>)
    requires WellFormed(schema) && AllLinked(schema) && r < |schema.reports| && Sendable(schema, r, values)
    ensures |Payload(schema, r, values)| == schema.reports[r].ByteSize()
  {
    BitsSize(schema, r, values);
  }

  /** A filled report is decoded as the report that it is. */
  lemma FilledRoute(schema: Schema, s: Sent)
    requires WellFormed(schema) && AllLinked(schema) && SentOk(schema, s) && s.Filled?
    ensures var d := DeliveryOf(schema, s); var bytes := Payload(schema, s.report, s.values) + s.tail;
      RouteOf(schema, d.source, d.payload) == Decode(if s.tail == [] then Exact else Status.Long, s.report, bytes)
  {
    PayloadSize(schema, s.report, s.values);
    assert UniqueReports(schema.reports);
    hide WellFormed, Payload, Sendable;
    assert ReportIndex(schema.reports, Input, schema.reports[s.report].reportId) == s.report;
  }

  /** The values sent for scalar `k` of field `i` of report `r` that lie in a range, over the first `n`. */
  function Carried(run: seq<Sent>, r: nat, i: nat, k: nat, range: Range, n: nat): seq<int>
    requires n <= |run|
  {
    if n == 0 then []
    else
      var before := Carried(run, r, i, k, range, n - 1);
      match run[n - 1]
      case Refused(_) => before
      case Filled(_, report, values, _) =>
        if report == r && i < |values| && k < |values[i]| && range.minimum <= values[i][k] <= range.maximum
        then before + [values[i][k]] else before
  }

  lemma CarriedIsRead(schema: Schema, s: Sent, r: nat, i: nat, k: nat)
    requires WellFormed(schema) && AllLinked(schema) && SentOk(schema, s)
    requires r < |schema.reports| && i < |schema.reports[r].fieldIds| && k < FieldAt(schema, r, i).reportCount
    ensures ReadingOf(schema, r, FieldAt(schema, r, i), k, DeliveryOf(schema, s))
      == match s
         case Refused(_) => None
         case Filled(_, report, values, _) =>
           var range := FieldAt(schema, r, i).logical;
           if report == r && i < |values| && k < |values[i]| && range.minimum <= values[i][k] <= range.maximum
           then Some(values[i][k]) else None
  {
    hide WellFormed, Reading, RouteOf, Payload;
    if s.Filled? {
      FilledRoute(schema, s);
      if s.report == r {
        PackedReading(schema, r, s.values, s.tail, i, k);
      }
    }
  }

  lemma {:induction false} ReadingsAreCarried(schema: Schema, run: seq<Sent>, r: nat, i: nat, k: nat, n: nat)
    requires WellFormed(schema) && AllLinked(schema) && AllSent(schema, run) && n <= |run|
    requires r < |schema.reports| && i < |schema.reports[r].fieldIds| && k < FieldAt(schema, r, i).reportCount
    ensures Readings(schema, r, FieldAt(schema, r, i), k, DeliveriesOf(schema, run), n)
      == Carried(run, r, i, k, FieldAt(schema, r, i).logical, n)
  {
    hide WellFormed, ReadingOf, SentOk, DeliveryOf;
    if n > 0 {
      ReadingsAreCarried(schema, run, r, i, k, n - 1);
      assert SentOk(schema, run[n - 1]);
      CarriedIsRead(schema, run[n - 1], r, i, k);
    }
  }

  // ---------- scalars ----------

  /** A variable field that is not constant (section 6.2.2.5 of HID 1.11: bits 0 and 1 of the flags). */
  ghost predicate IsControl(schema: Schema, r: nat, i: nat, k: nat)
    requires AllLinked(schema)
  {
    && r < |schema.reports| && schema.reports[r].kind == Input && i < |schema.reports[r].fieldIds|
    && var field := FieldAt(schema, r, i); field.flags % 2 == 0 && (field.flags / 2) % 2 == 1 && k < field.reportCount
  }

  predicate MovesRelatively(field: Field) {
    (field.flags / 4) % 2 == 1
  }

  /** Which usage a scalar of a variable field has: its own from the list, past the list the last one, and
      without a list its place in a range of usages on one page. */
  function ControlUsage(field: Field, k: nat): Usage {
    var n, low, high := |field.usages|, field.usageMinimum, field.usageMaximum;
    if n > 0 then field.usages[if k < n then k else n - 1]
    else if field.hasUsageRange && low.page == high.page && low.usage + k <= high.usage
    then Usage(low.usage + k, low.page)
    else Usage(0, 0)
  }

  lemma ControlUsageIsUsageAt(field: Field, k: nat)
    ensures field.UsageAt(k, true) == ControlUsage(field, k)
  {
  }

  /** How a scalar is coalesced: motions add up; keyboards, buttons and consumer controls, and anything with
      at most 17 values, pass through; of the rest the latest value counts. */
  function ControlAggregation(field: Field, page: uint16): Aggregation {
    if MovesRelatively(field) then Aggregation.Sum
    else if page == 0x07 || page == 0x09 || page == 0x0C then Passthrough
    else if field.logical.maximum - field.logical.minimum > 16 then Latest
    else Passthrough
  }

  lemma ControlAggregationIsAggregation(field: Field, usage: Usage)
    ensures AggregationOf(field, usage) == ControlAggregation(field, usage.page)
  {
  }

  /** What a value of a scalar says beside its amount. */
  predicate SpeaksFor(schema: Schema, field: Field, k: nat, v: Value) {
    && v.usage == ControlUsage(field, k) && v.isRelative == MovesRelatively(field)
    && v.aggregation == ControlAggregation(field, ControlUsage(field, k).page) && v.raw == v.value
    && v.application == ApplicationUsage(schema.collections, field.collectionId)
  }

  /** The values emitted under the report id and the bit position of a scalar. */
  ghost function ControlEvents(schema: Schema, run: seq<Sent>, r: nat, i: nat, k: nat): seq<Value>
    requires AllLinked(schema) && AllSent(schema, run) && r < |schema.reports| && i < |schema.reports[r].fieldIds|
  {
    var field := FieldAt(schema, r, i);
    Select(RunEvents(schema, DeliveriesOf(schema, run), |run|), schema.reports[r].reportId,
           field.bitOffset + k * field.reportSize)
  }

  lemma ControlIsScalar(schema: Schema, r: nat, i: nat, k: nat)
    requires AllLinked(schema) && IsControl(schema, r, i, k)
    ensures IsScalar(schema, r, i, k) && Linked(schema.fields, schema.reports[r]) && schema.reports[r].kind == Input
    ensures FieldAt(schema, r, i).IsRelative() == MovesRelatively(FieldAt(schema, r, i))
    ensures FieldAt(schema, r, i).Position(k) == FieldAt(schema, r, i).bitOffset + k * FieldAt(schema, r, i).reportSize
  {
  }

  lemma ControlValues(schema: Schema, run: seq<Sent>, r: nat, i: nat, k: nat)
    requires WellFormed(schema) && AllLinked(schema) && AllSent(schema, run) && IsControl(schema, r, i, k)
    ensures var field := FieldAt(schema, r, i); var sent := Carried(run, r, i, k, field.logical, |run|);
      ValuesOf(ControlEvents(schema, run, r, i, k))
        == if MovesRelatively(field) then NonZero(sent) else Changes(0, sent)
  {
    hide WellFormed, RunEvents, RunRuntime, Select, Readings, Carried, AllSent, AllLinked, IsControl, IsScalar, NonZero,
      Changes, DeliveriesOf, RuntimeOf, LastAt, Last, Field.IsRelative, MovesRelatively,
      Field.Position;
    ControlIsScalar(schema, r, i, k);
    ReadingsAreCarried(schema, run, r, i, k, |run|);
    ScalarReplay(schema, r, i, k, DeliveriesOf(schema, run), |run|);
  }

  lemma ControlMeanings(schema: Schema, run: seq<Sent>, r: nat, i: nat, k: nat)
    requires WellFormed(schema) && AllLinked(schema) && AllSent(schema, run) && IsControl(schema, r, i, k)
    ensures forall v | v in ControlEvents(schema, run, r, i, k) :: SpeaksFor(schema, FieldAt(schema, r, i), k, v)
  {
    hide WellFormed, RunEvents, Select, ApplicationUsage, AggregationOf, Field.UsageAt, ControlUsage,
      ControlAggregation, AllSent, AllLinked, IsControl, IsScalar, DeliveriesOf, Field.IsRelative, MovesRelatively,
      Field.Position;
    ControlIsScalar(schema, r, i, k);
    var field := FieldAt(schema, r, i);
    KeyHasOneMeaning(schema, r, i, k, DeliveriesOf(schema, run), |run|);
    ControlUsageIsUsageAt(field, k);
    ControlAggregationIsAggregation(field, field.UsageAt(k, true));
  }

  /** Over any run of filled and refused reports, in any order, the values emitted at a scalar's bit position
      are the motions, or the changes from zero on, among the values that were sent for it and lie in its
      logical range, both ends included; and every one of them says what the descriptor says. */
  lemma PackedScalarReplay(schema: Schema, run: seq<Sent>, r: nat, i: nat, k: nat)
    requires WellFormed(schema) && AllLinked(schema) && AllSent(schema, run) && IsControl(schema, r, i, k)
    ensures var field, events := FieldAt(schema, r, i), ControlEvents(schema, run, r, i, k);
      var sent := Carried(run, r, i, k, field.logical, |run|);
      && ValuesOf(events) == (if MovesRelatively(field) then NonZero(sent) else Changes(0, sent))
      && forall v | v in events :: SpeaksFor(schema, field, k, v)
  {
    hide WellFormed, ControlEvents, SpeaksFor, Carried, NonZero, Changes;
    ControlValues(schema, run, r, i, k);
    ControlMeanings(schema, run, r, i, k);
  }

  // ---------- arrays ----------

  /** Which usage a value in a slot of an array field asserts: the values of the logical range count through
      the listed usages from the logical minimum on; past the list they count through a range of usages on
      one page. A usage with id or page zero is none. */
  function SlotMeaning(field: Field, v: int): Option<Usage> {
    var place, low, high := v - field.logical.minimum, field.usageMinimum, field.usageMaximum;
    if v < field.logical.minimum || v > field.logical.maximum then None
    else
      var usage :=
        if place < |field.usages| then field.usages[place]
        else if field.hasUsageRange && low.page == high.page && low.usage + place <= high.usage
        then Usage(low.usage + place, low.page)
        else Usage(0, 0);
      if usage.usage == 0 || usage.page == 0 then None else Some(usage)
  }

  /** The usages that the first `n` slots assert. */
  function SlotMeanings(field: Field, values: seq<int>, n: nat): multiset<Usage>
    requires n <= |values|
  {
    if n == 0 then multiset{}
    else
      SlotMeanings(field, values, n - 1)
        + match SlotMeaning(field, values[n - 1]) case None => multiset{} case Some(u) => multiset{u}
  }

  lemma SlotMeaningIsAsserted(field: Field, v: int, data: seq<uint8>, k: nat)
    requires 1 <= field.reportSize <= 32 && FitsField(field, v) && RangeOk(field.logical)
    requires Reading(field, k, data) == if field.logical.minimum <= v <= field.logical.maximum then Some(v) else None
    ensures match SlotMeaning(field, v)
      case None => Asserted(field, k, data) == None
      case Some(u) => Asserted(field, k, data) == Some(Active(u, v))
  {
    hide Reading;
    Pow2Monotone(field.reportSize - 1, 31);
    Pow2Values();
    if field.logical.minimum <= v <= field.logical.maximum {
      var place := v - field.logical.minimum;
      assert 0 <= place < 0x1_0000_0000;
      assert place % 0x1_0000_0000 == place;
    }
  }

  lemma RangeIsOk(schema: Schema, r: nat, i: nat)
    requires WellFormed(schema) && r < |schema.reports| && i < |schema.reports[r].fieldIds|
    ensures Linked(schema.fields, schema.reports[r]) && RangeOk(FieldAt(schema, r, i).logical)
  {
    FieldAtOk(schema, r, i);
  }

  lemma SlotIsMeant(schema: Schema, r: nat, values: seq<seq<int>>, tail: seq<uint8>, i: nat, k: nat)
    requires WellFormed(schema) && AllLinked(schema) && r < |schema.reports| && Sendable(schema, r, values)
    requires i < |values| && k < |values[i]|
    ensures var field, v := FieldAt(schema, r, i), values[i][k];
      Asserted(field, k, Payload(schema, r, values) + tail)
        == match SlotMeaning(field, v) case None => None case Some(u) => Some(Active(u, v))
  {
    hide WellFormed, Asserted, Reading, Payload, SlotMeaning, RangeOk, FitsField;
    FieldAtOk(schema, r, i);
    RangeIsOk(schema, r, i);
    PackedReading(schema, r, values, tail, i, k);
    SlotMeaningIsAsserted(FieldAt(schema, r, i), values[i][k], Payload(schema, r, values) + tail, k);
  }

  lemma {:induction false} SlotsAreMeant(schema: Schema, r: nat, values: seq<seq<int>>, tail: seq<uint8>, i: nat,
                                         n: nat)
    requires WellFormed(schema) && AllLinked(schema) && r < |schema.reports| && Sendable(schema, r, values)
    requires i < |values| && n <= |values[i]|
    ensures SlotUsages(FieldAt(schema, r, i), Payload(schema, r, values) + tail, n)
      == SlotMeanings(FieldAt(schema, r, i), values[i], n)
  {
    hide WellFormed, Asserted, Payload, SlotMeaning, FitsField;
    if n > 0 {
      SlotsAreMeant(schema, r, values, tail, i, n - 1);
      SlotIsMeant(schema, r, values, tail, i, n - 1);
    }
  }

  /** The usages asserted by the last report `r` among the first `n`; nothing before the first one. */
  function LastMeant(run: seq<Sent>, r: nat, i: nat, field: Field, n: nat): multiset<Usage>
    requires n <= |run|
  {
    if n == 0 then multiset{}
    else if run[n - 1].Filled? && run[n - 1].report == r && i < |run[n - 1].values|
    then SlotMeanings(field, run[n - 1].values[i], |run[n - 1].values[i]|)
    else LastMeant(run, r, i, field, n - 1)
  }

  lemma {:induction false} LastAssertedIsMeant(schema: Schema, run: seq<Sent>, r: nat, i: nat, n: nat)
    requires WellFormed(schema) && AllLinked(schema) && AllSent(schema, run) && n <= |run|
    requires r < |schema.reports| && i < |schema.reports[r].fieldIds|
    ensures LastAsserted(schema, r, FieldAt(schema, r, i), DeliveriesOf(schema, run), n)
      == LastMeant(run, r, i, FieldAt(schema, r, i), n)
  {
    hide WellFormed, RouteOf, SlotUsages, SlotMeanings, Payload;
    if n > 0 {
      var s := run[n - 1];
      assert SentOk(schema, s);
      LastAssertedIsMeant(schema, run, r, i, n - 1);
      if s.Filled? {
        FilledRoute(schema, s);
        if s.report == r {
          SlotsAreMeant(schema, r, s.values, s.tail, i, |s.values[i]|);
        }
      }
    }
  }

  /** An array field that is not constant. */
  ghost predicate IsSelector(schema: Schema, r: nat, i: nat)
    requires AllLinked(schema)
  {
    && r < |schema.reports| && schema.reports[r].kind == Input && i < |schema.reports[r].fieldIds|
    && var field := FieldAt(schema, r, i); field.flags % 2 == 0 && (field.flags / 2) % 2 == 0
  }

  // ---------- what the values of an array say ----------

  /** A press carries the slot value that asserts its usage, a release carries zero. */
  predicate SpeaksForSlot(schema: Schema, field: Field, v: Value) {
    && v.application == ApplicationUsage(schema.collections, field.collectionId)
    && !v.isRelative && v.aggregation == Passthrough
    && if v.value == 1 then SlotMeaning(field, v.raw) == Some(v.usage) else v.value == 0 && v.raw == 0
  }

  predicate EntriesMeant(field: Field, entries: seq<Active>) {
    forall e | e in entries :: SlotMeaning(field, e.raw) == Some(e.usage)
  }

  lemma AssertedIsMeant(field: Field, data: seq<uint8>, k: nat)
    requires 1 <= field.reportSize <= 32 && RangeOk(field.logical) && Asserted(field, k, data).Some?
    ensures var e := Asserted(field, k, data).value; SlotMeaning(field, e.raw) == Some(e.usage)
  {
    hide SlotMeaning, BitSlice, FromBits, Widen;
    var at, size := field.Position(k), field.reportSize;
    ReadValuePacksBack(data, at, size, field.logical.minimum < 0);
    var v := ReadField(data, at, size, field.logical.minimum < 0).value;
    SlotMeaningIsAsserted(field, v, data, k);
  }

  lemma {:induction false} EmplaceKeepsMeaning(field: Field, entries: seq<Active>, e: Active)
    requires EntriesMeant(field, entries) && SlotMeaning(field, e.raw) == Some(e.usage)
    ensures EntriesMeant(field, Emplace(entries, e))
  {
    hide SlotMeaning;
    if entries != [] && !UsageLess(e.usage, entries[0].usage) {
      EmplaceKeepsMeaning(field, entries[1..], e);
    }
  }

  lemma {:induction false} CurrentIsMeant(field: Field, data: seq<uint8>, n: nat)
    requires 1 <= field.reportSize <= 32 && RangeOk(field.logical)
    ensures EntriesMeant(field, Current(field, data, n))
  {
    hide SlotMeaning, Asserted, Emplace, RangeOk;
    if n > 0 {
      CurrentIsMeant(field, data, n - 1);
      if Asserted(field, n - 1, data).Some? {
        AssertedIsMeant(field, data, n - 1);
        EmplaceKeepsMeaning(field, Current(field, data, n - 1), Asserted(field, n - 1, data).value);
      }
    }
  }

  lemma {:induction false} UnmatchedIsPart(entries: seq<Active>, others: seq<Active>, n: nat)
    requires n <= |entries|
    ensures forall e | e in Unmatched(entries, others, n) :: e in entries
  {
    hide Remaining, HidDecoder.FindUsage;
    if n > 0 {
      UnmatchedIsPart(entries, others, n - 1);
    }
  }

  lemma ArrayEventsSpeak(schema: Schema, report: Report, field: Field, before: seq<Active>, now: seq<Active>)
    requires EntriesMeant(field, now)
    ensures forall v | v in ArrayEvents(schema, report, field, before, now) :: SpeaksForSlot(schema, field, v)
  {
    hide SlotMeaning, ApplicationUsage, Unmatched;
    UnmatchedIsPart(now, before, |now|);
  }

  lemma StampKeepsSpeaking(schema: Schema, field: Field, values: seq<Value>, handle: uint16)
    requires forall v | v in values :: SpeaksForSlot(schema, field, v)
    ensures forall v | v in Stamp(values, handle) :: SpeaksForSlot(schema, field, v)
  {
    forall v | v in Stamp(values, handle)
      ensures SpeaksForSlot(schema, field, v)
    {
      var n :| 0 <= n < |values| && v == values[n].(handle := handle);
      assert SpeaksForSlot(schema, field, values[n]);
    }
  }

  lemma ArrayDeliverySpeaks(schema: Schema, r: nat, i: nat, runtime: Runtime, d: Delivery)
    requires WellFormed(schema) && AllLinked(schema) && IsArray(schema, r, i)
    ensures forall v | v in ArrayDelivery(schema, r, i, runtime, d) :: SpeaksForSlot(schema, FieldAt(schema, r, i), v)
  {
    hide WellFormed, ParseEvents, ParseRuntime, RouteOf, RuntimeOf, Select, FieldEvents, FieldAfter, Current,
      ArrayEvents, SpeaksForSlot, EntriesMeant, RangeOk;
    var report, field, route := schema.reports[r], FieldAt(schema, r, i), RouteOf(schema, d.source, d.payload);
    FieldAtOk(schema, r, i);
    RangeIsOk(schema, r, i);
    ArrayFieldEvents(schema, r, i, RuntimeOf(runtime, field), []);
    DeliveryAtKey(schema, r, i, runtime, d, field.bitOffset);
    if route.Decode? && route.report == r {
      var before := RuntimeOf(runtime, field).active;
      var now := Current(field, route.bytes, field.reportCount);
      ArrayFieldEvents(schema, r, i, RuntimeOf(runtime, field), route.bytes);
      CurrentIsMeant(field, route.bytes, field.reportCount);
      ArrayEventsSpeak(schema, report, field, before, now);
      StampKeepsSpeaking(schema, field, ArrayEvents(schema, report, field, before, now), d.source.handle);
    }
  }

  /** Over any run at all, every value of an array field is a press of the usage that its raw value asserts,
      or a release. */
  lemma {:induction false} ArrayRunSpeaks(schema: Schema, r: nat, i: nat, run: seq<Delivery>, n: nat)
    requires WellFormed(schema) && AllLinked(schema) && IsArray(schema, r, i) && n <= |run|
    ensures forall v | v in ArrayRun(schema, r, i, run, n) :: SpeaksForSlot(schema, FieldAt(schema, r, i), v)
  {
    hide WellFormed, ParseEvents, ParseRuntime, Select, SpeaksForSlot;
    if n == 0 {
      SelectNothing([], schema.reports[r].reportId, FieldAt(schema, r, i).bitOffset);
    } else {
      var before := RunRuntime(schema, run, n - 1);
      ArrayRunSpeaks(schema, r, i, run, n - 1);
      ArrayDeliverySpeaks(schema, r, i, before, run[n - 1]);
      SelectConcat(RunEvents(schema, run, n - 1), ParseEvents(schema, before, run[n - 1].source, run[n - 1].payload),
                   schema.reports[r].reportId, FieldAt(schema, r, i).bitOffset);
    }
  }

  /** Over any run, presses minus releases of an array field are the usages that the slots of its last report
      assert, and every press names the slot value that asserts its usage. */
  lemma PackedArrayReplay(schema: Schema, run: seq<Sent>, r: nat, i: nat)
    requires WellFormed(schema) && AllLinked(schema) && AllSent(schema, run) && IsSelector(schema, r, i)
    ensures var field := FieldAt(schema, r, i);
      var events := Select(RunEvents(schema, DeliveriesOf(schema, run), |run|), schema.reports[r].reportId,
                           field.bitOffset);
      && Tally(events, 1) == Tally(events, 0) + LastMeant(run, r, i, field, |run|)
      && forall v | v in events :: SpeaksForSlot(schema, field, v)
  {
    hide WellFormed, RunEvents, Select, Tally, LastAsserted, SentOk, SpeaksForSlot;
    ArrayRunSpeaks(schema, r, i, DeliveriesOf(schema, run), |run|);
    LastAssertedIsMeant(schema, run, r, i, |run|);
    ArrayReplay(schema, r, i, DeliveriesOf(schema, run), |run|);
  }
}
