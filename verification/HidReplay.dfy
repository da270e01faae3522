/** Whole runs of the report decoder: the emitted values of every scalar and every array usage
    replay the device state, and reports and fields do not interfere. */
module HidReplay {
  import opened Integers
  import opened Streams
  import opened HidSchema
  import opened HidDecoder

  datatype Delivery = Delivery(source: Source, payload: Buffer)

  /** All values emitted over the first `n` deliveries, from a fresh decoder. */
  function RunEvents(schema: Schema, run: seq<Delivery>, n: nat): seq<Value>
    requires AllLinked(schema) && n <= |run|
  {
    if n == 0 then []
    else
      RunEvents(schema, run, n - 1)
        + ParseEvents(schema, RunRuntime(schema, run, n - 1), run[n - 1].source, run[n - 1].payload)
  }

  function RunRuntime(schema: Schema, run: seq<Delivery>, n: nat): Runtime
    requires AllLinked(schema) && n <= |run|
  {
    if n == 0 then map[]
    else ParseRuntime(schema, RunRuntime(schema, run, n - 1), run[n - 1].source, run[n - 1].payload)
  }

  /** A descriptor-defined scalar of an input report: report, place of its field, index in the field. */
  ghost predicate IsScalar(schema: Schema, r: nat, i: nat, index: nat) {
    && r < |schema.reports| && i < |schema.reports[r].fieldIds|
    && schema.reports[r].fieldIds[i] < |schema.fields|
    && var field := schema.fields[schema.reports[r].fieldIds[i]];
       !field.IsConstant() && field.IsVariable() && index < field.reportCount
  }

  function FieldAt(schema: Schema, r: nat, i: nat): Field
    requires r < |schema.reports| && i < |schema.reports[r].fieldIds|
    requires schema.reports[r].fieldIds[i] < |schema.fields|
  {
    schema.fields[schema.reports[r].fieldIds[i]]
  }

  /** The in-range value that a delivery brings for a scalar, when it is decoded as its report. */
  function ReadingOf(schema: Schema, r: nat, field: Field, index: nat, d: Delivery): Option<int> {
    match RouteOf(schema, d.source, d.payload)
    case Reject(_, _) => None
    case Decode(_, report, bytes) => if report == r then Reading(field, index, bytes) else None
  }

  /** The values received for a scalar over the first `n` deliveries. */
  function Readings(schema: Schema, r: nat, field: Field, index: nat, run: seq<Delivery>, n: nat): seq<int>
    requires n <= |run|
  {
    if n == 0 then []
    else
      match ReadingOf(schema, r, field, index, run[n - 1])
      case None => Readings(schema, r, field, index, run, n - 1)
      case Some(v) => Readings(schema, r, field, index, run, n - 1) + [v]
  }

  /** The emissions under a report id and field id. */
  function Select(events: seq<Value>, reportId: uint8, fieldId: nat): seq<Value> {
    if events == [] then []
    else
      var last := events[|events| - 1];
      Select(events[..|events| - 1], reportId, fieldId)
        + (if last.reportId == reportId && last.fieldId == fieldId then [last] else [])
  }

  function ValuesOf(events: seq<Value>): (values: seq<int>)
    ensures |values| == |events|
  {
    seq(|events|, i requires 0 <= i < |events| => events[i].value)
  }

  /** The values emitted under a report id and field id. */
  function AtKey(events: seq<Value>, reportId: uint8, fieldId: nat): seq<int> {
    ValuesOf(Select(events, reportId, fieldId))
  }

  lemma {:induction false} SelectConcat(a: seq<Value>, b: seq<Value>, reportId: uint8, fieldId: nat)
    ensures Select(a + b, reportId, fieldId) == Select(a, reportId, fieldId) + Select(b, reportId, fieldId)
  {
    if b == [] {
      assert a + b == a;
    } else {
      assert (a + b)[..|a + b| - 1] == a + b[..|b| - 1];
      SelectConcat(a, b[..|b| - 1], reportId, fieldId);
    }
  }

  lemma AtKeyConcat(a: seq<Value>, b: seq<Value>, reportId: uint8, fieldId: nat)
    ensures AtKey(a + b, reportId, fieldId) == AtKey(a, reportId, fieldId) + AtKey(b, reportId, fieldId)
  {
    hide Select;
    SelectConcat(a, b, reportId, fieldId);
  }

  lemma {:induction false} SelectStamped(values: seq<Value>, handle: uint16, reportId: uint8, fieldId: nat)
    ensures Select(Stamp(values, handle), reportId, fieldId) == Stamp(Select(values, reportId, fieldId), handle)
  {
    if values != [] {
      var init := values[..|values| - 1];
      SelectStamped(init, handle, reportId, fieldId);
      assert Stamp(values, handle)[..|values| - 1] == Stamp(init, handle);
    }
  }

  lemma {:induction false} SelectNothing(events: seq<Value>, reportId: uint8, fieldId: nat)
    requires forall e | 0 <= e < |events| :: !(events[e].reportId == reportId && events[e].fieldId == fieldId)
    ensures Select(events, reportId, fieldId) == []
  {
    if events != [] {
      SelectNothing(events[..|events| - 1], reportId, fieldId);
    }
  }

  lemma {:induction false} SelectAll(events: seq<Value>, reportId: uint8, fieldId: nat)
    requires forall e | 0 <= e < |events| :: events[e].reportId == reportId && events[e].fieldId == fieldId
    ensures Select(events, reportId, fieldId) == events
  {
    if events != [] {
      SelectAll(events[..|events| - 1], reportId, fieldId);
    }
  }

  // ---------- one field ----------

  lemma {:induction false} ScalarEventsInField(schema: Schema, report: Report, field: Field, lasts: seq<int>,
                                               data: seq<uint8>, n: nat)
    requires field.reportSize >= 1 && n <= field.reportCount
    ensures forall e | 0 <= e < |ScalarEvents(schema, report, field, lasts, data, n)| ::
      var v := ScalarEvents(schema, report, field, lasts, data, n)[e];
      v.reportId == report.reportId && field.bitOffset <= v.fieldId < field.Position(n)
  {
    if n > 0 {
      ScalarEventsInField(schema, report, field, lasts, data, n - 1);
      assert field.Position(n) == field.Position(n - 1) + field.reportSize;
      assert field.Position(n - 1) >= field.bitOffset;
    }
  }

  /** All values of a field carry its report id and a field id inside its bits. */
  lemma FieldEventsInField(schema: Schema, report: Report, field: Field, runtime: FieldRuntime, data: seq<uint8>)
    requires field.reportSize >= 1 && field.reportCount >= 1
    ensures forall e | 0 <= e < |FieldEvents(schema, report, field, runtime, data)| ::
      var v := FieldEvents(schema, report, field, runtime, data)[e];
      v.reportId == report.reportId && field.bitOffset <= v.fieldId < field.End()
  {
    assert field.End() == field.Position(field.reportCount);
    ScalarInsideField(field, 0);
    if field.IsVariable() {
      ScalarEventsInField(schema, report, field, runtime.lastValues, data, field.reportCount);
    }
  }

  /** A scalar emits at most one value a report, under its own bit position. */
  lemma {:induction false} ScalarAtKey(schema: Schema, report: Report, field: Field, lasts: seq<int>,
                                       data: seq<uint8>, n: nat, index: nat)
    requires field.reportSize >= 1 && n <= field.reportCount && index < field.reportCount
    ensures Select(ScalarEvents(schema, report, field, lasts, data, n), report.reportId, field.Position(index))
      == (if index < n && Emits(field, LastAt(lasts, index), Reading(field, index, data))
          then [ScalarValue(schema, report, field, index, Reading(field, index, data).value)] else [])
  {
    hide Reading, Emits, ScalarValue, LastAt, ScalarEvents, Select, Field.Position;
    if n == 0 {
      NoScalars(schema, report, field, lasts, data);
      SelectNothing([], report.reportId, field.Position(index));
    } else {
      var init := ScalarEvents(schema, report, field, lasts, data, n - 1);
      var reading := Reading(field, n - 1, data);
      ScalarAtKey(schema, report, field, lasts, data, n - 1, index);
      NextScalar(schema, report, field, lasts, data, n - 1);
      if Emits(field, LastAt(lasts, n - 1), reading) {
        SelectScalar(schema, report, field, n - 1, reading, LastAt(lasts, n - 1), index);
        var v := ScalarValue(schema, report, field, n - 1, reading.value);
        SelectConcat(init, [v], report.reportId, field.Position(index));
      }
    }
  }

  lemma NoScalars(schema: Schema, report: Report, field: Field, lasts: seq<int>, data: seq<uint8>)
    ensures ScalarEvents(schema, report, field, lasts, data, 0) == []
  {
  }

  lemma NextScalar(schema: Schema, report: Report, field: Field, lasts: seq<int>, data: seq<uint8>, n: nat)
    ensures var init, reading := ScalarEvents(schema, report, field, lasts, data, n), Reading(field, n, data);
      && (Emits(field, LastAt(lasts, n), reading) ==> reading.Some?)
      && ScalarEvents(schema, report, field, lasts, data, n + 1)
         == (if Emits(field, LastAt(lasts, n), reading)
             then init + [ScalarValue(schema, report, field, n, reading.value)] else init)
  {
    hide Reading, ScalarValue, LastAt;
  }

  lemma SelectScalar(schema: Schema, report: Report, field: Field, n: nat, reading: Option<int>, last: int, index: nat)
    requires field.reportSize >= 1 && Emits(field, last, reading)
    ensures Select([ScalarValue(schema, report, field, n, reading.value)], report.reportId, field.Position(index))
      == (if n == index then [ScalarValue(schema, report, field, n, reading.value)] else [])
  {
    PositionInjective(field, index, n);
    var one := [ScalarValue(schema, report, field, n, reading.value)];
    if n == index {
      SelectAll(one, report.reportId, field.Position(index));
    } else {
      SelectNothing(one, report.reportId, field.Position(index));
    }
  }

  lemma PositionInjective(field: Field, a: nat, b: nat)
    requires field.reportSize >= 1
    ensures field.Position(a) == field.Position(b) ==> a == b
  {
    assert (a - b) * field.reportSize == field.Position(a) - field.Position(b);
    if a > b {
      assert (a - b) * field.reportSize >= 1;
    } else if a < b {
      assert (b - a) * field.reportSize >= 1;
    }
  }

  // ---------- one report ----------

  lemma FieldAtOk(schema: Schema, r: nat, i: nat)
    requires WellFormed(schema) && r < |schema.reports| && i < |schema.reports[r].fieldIds|
    ensures Linked(schema.fields, schema.reports[r])
    ensures var f := FieldAt(schema, r, i);
      && f.id == schema.reports[r].fieldIds[i] && f.reportId == schema.reports[r].reportId
      && f.kind == schema.reports[r].kind && FieldOk(schema, f.id)
      && 1 <= f.reportSize <= 32 && 1 <= f.reportCount
  {
    WellFormedIsLinked(schema);
    assert Tiled(schema.fields, schema.reports[r]);
    assert Describes(schema.fields, schema.reports[r], schema.reports[r].fieldIds[i]);
    assert FieldOk(schema, schema.reports[r].fieldIds[i]);
  }

  lemma FieldsApart(schema: Schema, r: nat, i: nat, j: nat)
    requires WellFormed(schema) && r < |schema.reports|
    requires i < |schema.reports[r].fieldIds| && j < |schema.reports[r].fieldIds| && i != j
    ensures schema.reports[r].fieldIds[i] < |schema.fields| && schema.reports[r].fieldIds[j] < |schema.fields|
    ensures FieldAt(schema, r, i).id != FieldAt(schema, r, j).id
    ensures FieldAt(schema, r, i).End() <= FieldAt(schema, r, j).bitOffset
      || FieldAt(schema, r, j).End() <= FieldAt(schema, r, i).bitOffset
  {
    FieldAtOk(schema, r, i);
    FieldAtOk(schema, r, j);
    assert Tiled(schema.fields, schema.reports[r]);
    if i < j {
      FieldsOrdered(schema.fields, schema.reports[r], i, j);
    } else {
      FieldsOrdered(schema.fields, schema.reports[r], j, i);
    }
  }

  /** The field at place `i` shares neither its id nor a bit with the other fields of the report. */
  ghost predicate Apart(schema: Schema, report: Report, i: nat) {
    && Linked(schema.fields, report) && i < |report.fieldIds|
    && (forall j | 0 <= j < |report.fieldIds| ::
          var f := schema.fields[report.fieldIds[j]]; f.reportSize >= 1 && f.reportCount >= 1)
    && forall j | 0 <= j < |report.fieldIds| && j != i ::
         var f, g := schema.fields[report.fieldIds[i]], schema.fields[report.fieldIds[j]];
         f.id != g.id && (f.End() <= g.bitOffset || g.End() <= f.bitOffset)
  }

  lemma FieldsOfReportApart(schema: Schema, r: nat, i: nat)
    requires WellFormed(schema) && r < |schema.reports| && i < |schema.reports[r].fieldIds|
    ensures Apart(schema, schema.reports[r], i)
  {
    WellFormedIsLinked(schema);
    var ids := schema.reports[r].fieldIds;
    assert Linked(schema.fields, schema.reports[r]);
    forall j | 0 <= j < |ids|
      ensures var f := schema.fields[ids[j]]; f.reportSize >= 1 && f.reportCount >= 1
    {
      FieldAtOk(schema, r, j);
    }
    forall j | 0 <= j < |ids| && j != i
      ensures var f, g := schema.fields[ids[i]], schema.fields[ids[j]];
        f.id != g.id && (f.End() <= g.bitOffset || g.End() <= f.bitOffset)
    {
      FieldsApart(schema, r, i, j);
    }
  }

  lemma RuntimeStep(schema: Schema, report: Report, runtime: Runtime, data: seq<uint8>, n: nat, field: Field)
    requires Linked(schema.fields, report) && 0 < n <= |report.fieldIds|
    ensures schema.fields[report.fieldIds[n - 1]].id != field.id ==>
      RuntimeOf(RuntimeAfter(schema, report, runtime, data, n), field)
        == RuntimeOf(RuntimeAfter(schema, report, runtime, data, n - 1), field)
    ensures schema.fields[report.fieldIds[n - 1]] == field ==>
      RuntimeOf(RuntimeAfter(schema, report, runtime, data, n), field)
        == FieldAfter(field, RuntimeOf(RuntimeAfter(schema, report, runtime, data, n - 1), field), data)
  {
  }

  /** Decoding a report acts on each of its fields as if the field were alone. */
  lemma {:induction false} FieldAlone(schema: Schema, report: Report, i: nat, runtime: Runtime, data: seq<uint8>,
                                      n: nat)
    requires Apart(schema, report, i) && n <= |report.fieldIds|
    ensures var field := schema.fields[report.fieldIds[i]];
      RuntimeOf(RuntimeAfter(schema, report, runtime, data, n), field)
        == (if i < n then FieldAfter(field, RuntimeOf(runtime, field), data) else RuntimeOf(runtime, field))
  {
    hide FieldAfter;
    if n > 0 {
      FieldAlone(schema, report, i, runtime, data, n - 1);
      RuntimeStep(schema, report, runtime, data, n, schema.fields[report.fieldIds[i]]);
    }
  }

  /** The values under a field id inside a field are the values of that field alone. */
  lemma {:induction false} FieldEventsAlone(schema: Schema, report: Report, i: nat, runtime: Runtime, data: seq<uint8>,
                                            n: nat, fieldId: nat)
    requires Apart(schema, report, i) && n <= |report.fieldIds|
    requires schema.fields[report.fieldIds[i]].bitOffset <= fieldId < schema.fields[report.fieldIds[i]].End()
    ensures var field := schema.fields[report.fieldIds[i]];
      Select(ReportEvents(schema, report, runtime, data, n), report.reportId, fieldId)
        == (if i < n then Select(FieldEvents(schema, report, field, RuntimeOf(runtime, field), data),
                                report.reportId, fieldId) else [])
  {
    hide RuntimeAfter, RuntimeOf, FieldEvents, Select;
    if n == 0 {
      SelectNothing([], report.reportId, fieldId);
    } else {
      var before := RuntimeAfter(schema, report, runtime, data, n - 1);
      var other := schema.fields[report.fieldIds[n - 1]];
      var last := FieldEvents(schema, report, other, RuntimeOf(before, other), data);
      FieldEventsAlone(schema, report, i, runtime, data, n - 1, fieldId);
      SelectConcat(ReportEvents(schema, report, runtime, data, n - 1), last, report.reportId, fieldId);
      if i == n - 1 {
        FieldAlone(schema, report, i, runtime, data, n - 1);
        SelectNothing([], report.reportId, fieldId);
      } else {
        FieldEventsInField(schema, report, other, RuntimeOf(before, other), data);
        SelectNothing(last, report.reportId, fieldId);
      }
    }
  }

  /** A report leaves the fields of all other reports alone. */
  lemma {:induction false} OtherReportsUntouched(schema: Schema, r: nat, q: nat, i: nat, runtime: Runtime,
                                                 data: seq<uint8>, n: nat)
    requires WellFormed(schema) && r < |schema.reports| && q < |schema.reports| && r != q
    requires i < |schema.reports[q].fieldIds| && n <= |schema.reports[r].fieldIds|
    ensures Linked(schema.fields, schema.reports[r]) && Linked(schema.fields, schema.reports[q])
    ensures RuntimeOf(RuntimeAfter(schema, schema.reports[r], runtime, data, n), FieldAt(schema, q, i))
      == RuntimeOf(runtime, FieldAt(schema, q, i))
  {
    hide WellFormed, RuntimeOf, FieldAfter;
    WellFormedIsLinked(schema);
    if n > 0 {
      OtherReportsUntouched(schema, r, q, i, runtime, data, n - 1);
      DifferentReportsDiffer(schema, r, n - 1, q, i);
      RuntimeStep(schema, schema.reports[r], runtime, data, n, FieldAt(schema, q, i));
    }
  }

  lemma DifferentReportsDiffer(schema: Schema, r: nat, j: nat, q: nat, i: nat)
    requires WellFormed(schema) && r < |schema.reports| && q < |schema.reports| && r != q
    requires j < |schema.reports[r].fieldIds| && i < |schema.reports[q].fieldIds|
    ensures schema.reports[r].fieldIds[j] < |schema.fields| && schema.reports[q].fieldIds[i] < |schema.fields|
    ensures FieldAt(schema, r, j).id != FieldAt(schema, q, i).id
  {
    FieldAtOk(schema, r, j);
    FieldAtOk(schema, q, i);
    hide WellFormed;
    FieldListedOnce(schema, schema.reports[q].fieldIds[i]);
  }

  /** All values of a report carry its id. */
  lemma {:induction false} EventsCarryReportId(schema: Schema, r: nat, runtime: Runtime, data: seq<uint8>, n: nat)
    requires WellFormed(schema) && r < |schema.reports| && n <= |schema.reports[r].fieldIds|
    ensures Linked(schema.fields, schema.reports[r])
    ensures forall e | 0 <= e < |ReportEvents(schema, schema.reports[r], runtime, data, n)| ::
      ReportEvents(schema, schema.reports[r], runtime, data, n)[e].reportId == schema.reports[r].reportId
  {
    WellFormedIsLinked(schema);
    if n > 0 {
      EventsCarryReportId(schema, r, runtime, data, n - 1);
      FieldAtOk(schema, r, n - 1);
      var report, field := schema.reports[r], FieldAt(schema, r, n - 1);
      var before := RuntimeAfter(schema, report, runtime, data, n - 1);
      FieldEventsInField(schema, report, field, RuntimeOf(before, field), data);
    }
  }

  // ---------- one delivery ----------

  /** What a delivery emits under a field id inside a field: the field's own values when the
      delivery is decoded as its report, and nothing otherwise. */
  lemma DeliveryAtKey(schema: Schema, r: nat, i: nat, runtime: Runtime, d: Delivery, fieldId: nat)
    requires WellFormed(schema) && AllLinked(schema) && r < |schema.reports| && i < |schema.reports[r].fieldIds|
    requires schema.reports[r].kind == Input
    requires FieldAt(schema, r, i).bitOffset <= fieldId < FieldAt(schema, r, i).End()
    ensures var report, field, route := schema.reports[r], FieldAt(schema, r, i), RouteOf(schema, d.source, d.payload);
      && Select(ParseEvents(schema, runtime, d.source, d.payload), report.reportId, fieldId)
         == (if route.Decode? && route.report == r
             then Stamp(Select(FieldEvents(schema, report, field, RuntimeOf(runtime, field), route.bytes),
                               report.reportId, fieldId), d.source.handle)
             else [])
      && RuntimeOf(ParseRuntime(schema, runtime, d.source, d.payload), field)
         == (if route.Decode? && route.report == r
             then FieldAfter(field, RuntimeOf(runtime, field), route.bytes) else RuntimeOf(runtime, field))
  {
    var report, route := schema.reports[r], RouteOf(schema, d.source, d.payload);
    if route.Decode? {
      var decoded := schema.reports[route.report];
      var n := |decoded.fieldIds|;
      var events := ReportEvents(schema, decoded, runtime, route.bytes, n);
      SelectStamped(events, d.source.handle, report.reportId, fieldId);
      if route.report == r {
        FieldsOfReportApart(schema, r, i);
        FieldAlone(schema, report, i, runtime, route.bytes, n);
        FieldEventsAlone(schema, report, i, runtime, route.bytes, n, fieldId);
      } else {
        OtherReportsUntouched(schema, route.report, r, i, runtime, route.bytes, n);
        EventsCarryReportId(schema, route.report, runtime, route.bytes, n);
        SelectNothing(events, report.reportId, fieldId);
      }
    }
  }

  // ---------- scalars over whole runs ----------

  /** The values a scalar may emit for a list of readings: every motion of a relative one, every
      change of an absolute one that starts at zero. */
  function Expected(field: Field, readings: seq<int>): seq<int> {
    if field.IsRelative() then NonZero(readings) else Changes(0, readings)
  }

  lemma ExpectedAppend(field: Field, readings: seq<int>, v: int)
    ensures Expected(field, readings + [v])
      == Expected(field, readings) + (if Emits(field, Last(0, readings), Some(v)) then [v] else [])
  {
    assert (readings + [v])[..|readings|] == readings;
  }

  lemma ScalarAfter(field: Field, runtime: FieldRuntime, data: seq<uint8>, index: nat)
    requires !field.IsConstant() && field.IsVariable() && index < |runtime.lastValues| == field.reportCount
    ensures var lasts := FieldAfter(field, runtime, data).lastValues;
      |lasts| == field.reportCount && LastAt(lasts, index) == NewLast(field, runtime.lastValues, data, index)
  {
    hide NewLast;
  }

  /** What one delivery means for one scalar. */
  lemma ScalarDelivery(schema: Schema, r: nat, i: nat, index: nat, runtime: Runtime, d: Delivery)
    requires WellFormed(schema) && AllLinked(schema) && IsScalar(schema, r, i, index)
    requires schema.reports[r].kind == Input
    requires |RuntimeOf(runtime, FieldAt(schema, r, i)).lastValues| == FieldAt(schema, r, i).reportCount
    ensures var field := FieldAt(schema, r, i);
      var last := LastAt(RuntimeOf(runtime, field).lastValues, index);
      var lasts' := RuntimeOf(ParseRuntime(schema, runtime, d.source, d.payload), field).lastValues;
      var reading := ReadingOf(schema, r, field, index, d);
      && Select(ParseEvents(schema, runtime, d.source, d.payload), schema.reports[r].reportId, field.Position(index))
         == (if Emits(field, last, reading)
             then [ScalarValue(schema, schema.reports[r], field, index, reading.value).(handle := d.source.handle)]
             else [])
      && |lasts'| == field.reportCount
      && LastAt(lasts', index) == (if Emits(field, last, reading) then reading.value else last)
  {
    hide WellFormed, ParseEvents, ParseRuntime, RouteOf, RuntimeOf, Select, Reading, FieldAfter, ScalarEvents, Emits,
      LastAt;
    var report, field, route := schema.reports[r], FieldAt(schema, r, i), RouteOf(schema, d.source, d.payload);
    FieldAtOk(schema, r, i);
    ScalarInsideField(field, index);
    DeliveryAtKey(schema, r, i, runtime, d, field.Position(index));
    if route.Decode? && route.report == r {
      ScalarAtKey(schema, report, field, RuntimeOf(runtime, field).lastValues, route.bytes, field.reportCount, index);
      ScalarAfter(field, RuntimeOf(runtime, field), route.bytes, index);
    } else {
      NothingEmitted(field, LastAt(RuntimeOf(runtime, field).lastValues, index));
    }
  }

  lemma ScalarDeliveryValues(schema: Schema, r: nat, i: nat, index: nat, runtime: Runtime, d: Delivery)
    requires WellFormed(schema) && AllLinked(schema) && IsScalar(schema, r, i, index)
    requires schema.reports[r].kind == Input
    requires |RuntimeOf(runtime, FieldAt(schema, r, i)).lastValues| == FieldAt(schema, r, i).reportCount
    ensures var field := FieldAt(schema, r, i);
      var reading := ReadingOf(schema, r, field, index, d);
      AtKey(ParseEvents(schema, runtime, d.source, d.payload), schema.reports[r].reportId, field.Position(index))
        == (if Emits(field, LastAt(RuntimeOf(runtime, field).lastValues, index), reading) then [reading.value] else [])
  {
    hide WellFormed, ParseEvents, ParseRuntime, RuntimeOf, Select, ReadingOf, Emits, LastAt;
    ScalarDelivery(schema, r, i, index, runtime, d);
  }

  lemma NothingEmitted(field: Field, last: int)
    ensures !Emits(field, last, None)
  {
  }

  /** Over any run of deliveries, in any interleaving of reports, statuses and lengths, the values
      emitted at a scalar's key are exactly the expected ones for the values it was sent. */
  lemma {:induction false} ScalarReplay(schema: Schema, r: nat, i: nat, index: nat, run: seq<Delivery>, n: nat)
    requires WellFormed(schema) && AllLinked(schema) && IsScalar(schema, r, i, index) && n <= |run|
    requires schema.reports[r].kind == Input
    ensures var field := FieldAt(schema, r, i); var readings := Readings(schema, r, field, index, run, n);
      && AtKey(RunEvents(schema, run, n), schema.reports[r].reportId, field.Position(index))
         == Expected(field, readings)
      && |RuntimeOf(RunRuntime(schema, run, n), field).lastValues| == field.reportCount
      && (!field.IsRelative() ==>
          LastAt(RuntimeOf(RunRuntime(schema, run, n), field).lastValues, index) == Last(0, readings))
  {
    hide WellFormed, ParseEvents, ParseRuntime, RuntimeOf, AtKey, Select, ReadingOf, Emits, LastAt;
    var field := FieldAt(schema, r, i);
    if n == 0 {
      ReplayStart(field, index, schema.reports[r].reportId);
    } else {
      hide Expected, Last;
      var d, before := run[n - 1], RunRuntime(schema, run, n - 1);
      var last := LastAt(RuntimeOf(before, field).lastValues, index);
      var readings, reading := Readings(schema, r, field, index, run, n - 1), ReadingOf(schema, r, field, index, d);
      ScalarReplay(schema, r, i, index, run, n - 1);
      ScalarDelivery(schema, r, i, index, before, d);
      ScalarDeliveryValues(schema, r, i, index, before, d);
      AtKeyConcat(RunEvents(schema, run, n - 1), ParseEvents(schema, before, d.source, d.payload),
                  schema.reports[r].reportId, field.Position(index));
      if reading.Some? {
        ExpectedAppend(field, readings, reading.value);
        EmitsAgrees(field, last, Last(0, readings), reading.value);
        LastAppend(readings, reading.value);
        EmitsOrRepeats(field, last, reading.value);
      } else {
        NothingEmitted(field, last);
      }
    }
  }

  lemma ReplayStart(field: Field, index: nat, reportId: uint8)
    ensures AtKey([], reportId, field.Position(index)) == Expected(field, [])
    ensures |RuntimeOf(map[], field).lastValues| == field.reportCount
    ensures LastAt(RuntimeOf(map[], field).lastValues, index) == Last(0, [])
  {
  }

  lemma EmitsAgrees(field: Field, a: int, b: int, v: int)
    requires field.IsRelative() || a == b
    ensures Emits(field, a, Some(v)) == Emits(field, b, Some(v))
  {
  }

  lemma EmitsOrRepeats(field: Field, last: int, v: int)
    ensures !field.IsRelative() && !Emits(field, last, Some(v)) ==> v == last
  {
  }

  lemma LastAppend(s: seq<int>, v: int)
    ensures Last(0, s + [v]) == v
  {
  }

  /** Absolute scalars: folding the emitted values gives the last in-range value received, and no
      emission repeats the one before. */
  lemma AbsoluteReplay(schema: Schema, r: nat, i: nat, index: nat, run: seq<Delivery>)
    requires WellFormed(schema) && AllLinked(schema) && IsScalar(schema, r, i, index)
    requires schema.reports[r].kind == Input && !FieldAt(schema, r, i).IsRelative()
    ensures var field := FieldAt(schema, r, i);
      var emitted := AtKey(RunEvents(schema, run, |run|), schema.reports[r].reportId, field.Position(index));
      Last(0, emitted) == Last(0, Readings(schema, r, field, index, run, |run|)) && Alternating(0, emitted)
  {
    ScalarReplay(schema, r, i, index, run, |run|);
    ChangesReplay(0, Readings(schema, r, FieldAt(schema, r, i), index, run, |run|));
  }

  /** Relative scalars: no motion is lost or invented. */
  lemma RelativeReplay(schema: Schema, r: nat, i: nat, index: nat, run: seq<Delivery>)
    requires WellFormed(schema) && AllLinked(schema) && IsScalar(schema, r, i, index)
    requires schema.reports[r].kind == Input && FieldAt(schema, r, i).IsRelative()
    ensures var field := FieldAt(schema, r, i);
      var emitted := AtKey(RunEvents(schema, run, |run|), schema.reports[r].reportId, field.Position(index));
      Streams.Sum(emitted) == Streams.Sum(Readings(schema, r, field, index, run, |run|)) && 0 !in emitted
  {
    ScalarReplay(schema, r, i, index, run, |run|);
    NonZeroSum(Readings(schema, r, FieldAt(schema, r, i), index, run, |run|));
  }
}
