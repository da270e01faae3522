/** What one input report does to the decoder: `parse`, `parse_input_` and the per-field
    runtime state of hid_parser.cpp, as functions. */
module HidDecoder {
  import opened Integers
  import opened Bits
  import opened HidSchema

  datatype Aggregation = Passthrough | Sum | Latest

  datatype Value = Value(
    usage: Usage, application: Usage, value: int, raw: int, handle: uint16,
    fieldId: nat, collectionId: uint16, reportId: uint8, isRelative: bool, aggregation: Aggregation)

  /** Where a report came from (HIDReportSource). */
  datatype Source = Source(
    serviceInstance: uint16, handle: uint16, reportId: uint8, hasReportId: bool,
    reportType: uint8, hasReportType: bool, isNotification: bool, hasTransport: bool, uuid: uint16)

  const NO_SOURCE := Source(0, 0, 0, false, 0, false, true, false, 0)

  datatype Status = Exact | Long | Short | SchemaMissing | KindMismatch | BootReport | InvalidPayload

  const HID_REPORT: uint16 := 0x2A4D
  const BOOT_KEYBOARD: uint16 := 0x2A22
  const BOOT_MOUSE: uint16 := 0x2A33

  /** The field ids that the boot decoder gives to the axes of a mouse. */
  const AXIS_X_FIELD: nat := 0xF010
  const AXIS_Y_FIELD: nat := 0xF011

  /** One asserted usage of an array field, with the raw value that asserted it. */
  datatype Active = Active(usage: Usage, raw: int)

  /** `active` is the multimap of the source: ordered by usage, equal usages in insertion order. */
  datatype FieldRuntime = FieldRuntime(lastValues: seq<int>, active: seq<Active>)

  type Runtime = map<nat, FieldRuntime>

  function FreshRuntime(field: Field): FieldRuntime {
    FieldRuntime(seq(field.reportCount, _ => 0), [])
  }

  /** The runtime of a field; it is created with zeros on first use. */
  function RuntimeOf(runtime: Runtime, field: Field): FieldRuntime {
    if field.id in runtime then runtime[field.id] else FreshRuntime(field)
  }

  function LastAt(lastValues: seq<int>, index: nat): int {
    if index < |lastValues| then lastValues[index] else 0
  }

  // ---------- scalars ----------

  /** The value of a scalar when it can be read and lies in the logical range. */
  function Reading(field: Field, index: nat, data: seq<uint8>): Option<int> {
    match ReadField(data, field.Position(index), field.reportSize, field.IsSigned())
    case None => None
    case Some(v) => if v < field.logical.minimum || v > field.logical.maximum then None else Some(v)
  }

  /** Relative scalars report every motion, absolute ones every change. */
  predicate Emits(field: Field, last: int, reading: Option<int>) {
    reading.Some? && (if field.IsRelative() then reading.value != 0 else last != reading.value)
  }

  function AggregationOf(field: Field, usage: Usage): Aggregation {
    if field.IsRelative() then Sum
    else
      var span := Max0(field.logical.maximum - field.logical.minimum);
      if usage.page !in {0x07, 0x09, 0x0C} && span > 16 then Latest else Passthrough
  }

  function ScalarValue(schema: Schema, report: Report, field: Field, index: nat, raw: int): Value {
    var usage := field.UsageAt(index, true);
    Value(usage, ApplicationUsage(schema.collections, field.collectionId), raw, raw, 0,
          field.Position(index), field.collectionId, report.reportId, field.IsRelative(), AggregationOf(field, usage))
  }

  /** The values of the first `n` scalars of a variable field. */
  function ScalarEvents(schema: Schema, report: Report, field: Field, lasts: seq<int>, data: seq<uint8>,
                        n: nat): seq<Value> {
    if n == 0 then []
    else
      var reading := Reading(field, n - 1, data);
      ScalarEvents(schema, report, field, lasts, data, n - 1)
        + (if Emits(field, LastAt(lasts, n - 1), reading)
           then [ScalarValue(schema, report, field, n - 1, reading.value)] else [])
  }

  function NewLast(field: Field, lasts: seq<int>, data: seq<uint8>, index: nat): int {
    var reading := Reading(field, index, data);
    if Emits(field, LastAt(lasts, index), reading) then reading.value else LastAt(lasts, index)
  }

  /** The stored values after the first `n` scalars. */
  function NewLasts(field: Field, lasts: seq<int>, data: seq<uint8>, n: nat): seq<int> {
    seq(|lasts|, i requires 0 <= i < |lasts| => if i < n then NewLast(field, lasts, data, i) else lasts[i])
  }

  // ---------- arrays ----------

  /** The usage that an array slot asserts, if any. */
  function Asserted(field: Field, index: nat, data: seq<uint8>): Option<Active> {
    match Reading(field, index, data)
    case None => None
    case Some(raw) =>
      var usage := field.UsageAt((raw - field.logical.minimum) % 0x1_0000_0000, false);
      if usage.page != 0 && usage.usage != 0 then Some(Active(usage, raw)) else None
  }

  /** Insertion behind the equal keys, as std::multimap::emplace does. */
  function Emplace(entries: seq<Active>, entry: Active): seq<Active> {
    if entries == [] || UsageLess(entry.usage, entries[0].usage) then [entry] + entries
    else [entries[0]] + Emplace(entries[1..], entry)
  }

  function Current(field: Field, data: seq<uint8>, n: nat): seq<Active> {
    if n == 0 then []
    else
      match Asserted(field, n - 1, data)
      case None => Current(field, data, n - 1)
      case Some(entry) => Emplace(Current(field, data, n - 1), entry)
  }

  /** Index of the first entry with the usage, or |entries|. */
  function FindUsage(entries: seq<Active>, usage: Usage): (i: nat)
    ensures i <= |entries|
    ensures i < |entries| ==> entries[i].usage == usage
  {
    if entries == [] || entries[0].usage == usage then 0 else 1 + FindUsage(entries[1..], usage)
  }

  function RemoveAt(entries: seq<Active>, i: nat): seq<Active>
    requires i < |entries|
  {
    entries[..i] + entries[i + 1..]
  }

  /** The entries of `others` that remain when the first `n` entries have each erased a match. */
  function Remaining(entries: seq<Active>, others: seq<Active>, n: nat): seq<Active>
    requires n <= |entries|
  {
    if n == 0 then others
    else
      var rest := Remaining(entries, others, n - 1);
      var i := FindUsage(rest, entries[n - 1].usage);
      if i < |rest| then RemoveAt(rest, i) else rest
  }

  /** Those of the first `n` entries that found no match in `others`. */
  function Unmatched(entries: seq<Active>, others: seq<Active>, n: nat): seq<Active>
    requires n <= |entries|
  {
    if n == 0 then []
    else
      var rest := Remaining(entries, others, n - 1);
      Unmatched(entries, others, n - 1)
        + (if FindUsage(rest, entries[n - 1].usage) < |rest| then [] else [entries[n - 1]])
  }

  function ArrayValue(schema: Schema, report: Report, field: Field, usage: Usage, value: int, raw: int): Value {
    Value(usage, ApplicationUsage(schema.collections, field.collectionId), value, raw, 0,
          field.bitOffset, field.collectionId, report.reportId, false, Passthrough)
  }

  function Presses(schema: Schema, report: Report, field: Field, entries: seq<Active>): (values: seq<Value>)
    ensures |values| == |entries|
  {
    seq(|entries|, i requires 0 <= i < |entries| =>
      ArrayValue(schema, report, field, entries[i].usage, 1, entries[i].raw))
  }

  function Releases(schema: Schema, report: Report, field: Field, entries: seq<Active>): (values: seq<Value>)
    ensures |values| == |entries|
  {
    seq(|entries|, i requires 0 <= i < |entries| => ArrayValue(schema, report, field, entries[i].usage, 0, 0))
  }

  function ArrayEvents(schema: Schema, report: Report, field: Field, before: seq<Active>,
                       now: seq<Active>): seq<Value> {
    Presses(schema, report, field, Unmatched(now, before, |now|))
      + Releases(schema, report, field, Unmatched(before, now, |before|))
  }

  // ---------- fields and reports ----------

  function FieldEvents(schema: Schema, report: Report, field: Field, runtime: FieldRuntime,
                       data: seq<uint8>): seq<Value> {
    if field.IsConstant() then []
    else if field.IsVariable() then ScalarEvents(schema, report, field, runtime.lastValues, data, field.reportCount)
    else ArrayEvents(schema, report, field, runtime.active, Current(field, data, field.reportCount))
  }

  function FieldAfter(field: Field, runtime: FieldRuntime, data: seq<uint8>): FieldRuntime {
    if field.IsConstant() then runtime
    else if field.IsVariable() then
      runtime.(lastValues := NewLasts(field, runtime.lastValues, data, field.reportCount))
    else runtime.(active := Current(field, data, field.reportCount))
  }

  predicate Linked(fields: seq<Field>, report: Report) {
    forall i | 0 <= i < |report.fieldIds| :: report.fieldIds[i] < |fields|
  }

  ghost predicate AllLinked(schema: Schema) {
    forall r | 0 <= r < |schema.reports| :: Linked(schema.fields, schema.reports[r])
  }

  /** The runtime after the first `n` fields of a report. */
  function RuntimeAfter(schema: Schema, report: Report, runtime: Runtime, data: seq<uint8>, n: nat): Runtime
    requires Linked(schema.fields, report) && n <= |report.fieldIds|
  {
    if n == 0 then runtime
    else
      var before := RuntimeAfter(schema, report, runtime, data, n - 1);
      var field := schema.fields[report.fieldIds[n - 1]];
      if field.IsConstant() then before
      else before[field.id := FieldAfter(field, RuntimeOf(before, field), data)]
  }

  /** The values of the first `n` fields of a report. */
  function ReportEvents(schema: Schema, report: Report, runtime: Runtime, data: seq<uint8>, n: nat): seq<Value>
    requires Linked(schema.fields, report) && n <= |report.fieldIds|
  {
    if n == 0 then []
    else
      var before := RuntimeAfter(schema, report, runtime, data, n - 1);
      var field := schema.fields[report.fieldIds[n - 1]];
      ReportEvents(schema, report, runtime, data, n - 1)
        + FieldEvents(schema, report, field, RuntimeOf(before, field), data)
  }

  /** The checks of `parse` in front of the decoding: either a status that rejects the payload,
      or the report whose fields will be decoded. */
  datatype Route =
    | Reject(status: Status, recognized: bool)
    | Decode(status: Status, report: nat, bytes: seq<uint8>)

  function RouteOf(schema: Schema, source: Source, payload: Buffer): (route: Route)
    ensures route.Decode? ==>
      && route.report < |schema.reports| && schema.reports[route.report].kind == Input
      && |route.bytes| >= schema.reports[route.report].ByteSize()
  {
    if payload.Null? && payload.length != 0 then Reject(InvalidPayload, false)
    else if source.uuid == BOOT_KEYBOARD || source.uuid == BOOT_MOUSE then Reject(BootReport, false)
    else if source.hasReportType && source.reportType != 1 then Reject(KindMismatch, false)
    else
      var id := if source.hasReportId then source.reportId else 0;
      var r := ReportIndex(schema.reports, Input, id);
      if r == |schema.reports| then Reject(SchemaMissing, false)
      else
        var bytes := if payload.Null? then [] else payload.bytes;
        var expected := schema.reports[r].ByteSize();
        if |bytes| < expected then Reject(Short, true)
        else Decode(if |bytes| == expected then Exact else Long, r, bytes)
  }

  /** Reports are delivered with the handle of the characteristic that sent them. */
  function Stamp(values: seq<Value>, handle: uint16): (stamped: seq<Value>)
    ensures |stamped| == |values|
  {
    seq(|values|, i requires 0 <= i < |values| => values[i].(handle := handle))
  }

  function ParseEvents(schema: Schema, runtime: Runtime, source: Source, payload: Buffer): seq<Value>
    requires AllLinked(schema)
  {
    match RouteOf(schema, source, payload)
    case Reject(_, _) => []
    case Decode(_, r, bytes) =>
      var report := schema.reports[r];
      Stamp(ReportEvents(schema, report, runtime, bytes, |report.fieldIds|), source.handle)
  }

  function ParseRuntime(schema: Schema, runtime: Runtime, source: Source, payload: Buffer): Runtime
    requires AllLinked(schema)
  {
    match RouteOf(schema, source, payload)
    case Reject(_, _) => runtime
    case Decode(_, r, bytes) =>
      RuntimeAfter(schema, schema.reports[r], runtime, bytes, |schema.reports[r].fieldIds|)
  }

  lemma WellFormedIsLinked(schema: Schema)
    requires WellFormed(schema)
    ensures AllLinked(schema)
  {
    forall r | 0 <= r < |schema.reports|
      ensures Linked(schema.fields, schema.reports[r])
    {
      assert Tiled(schema.fields, schema.reports[r]);
      forall i | 0 <= i < |schema.reports[r].fieldIds|
        ensures schema.reports[r].fieldIds[i] < |schema.fields|
      {
        assert Describes(schema.fields, schema.reports[r], schema.reports[r].fieldIds[i]);
      }
    }
  }
}
