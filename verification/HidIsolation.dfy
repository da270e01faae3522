/** What the decoder's output does not depend on, and why a report id together with a bit
    position identifies a scalar. */
module HidIsolation {
  import opened Integers
  import opened Bits
  import opened HidSchema
  import opened HidDecoder
  import opened HidReplay

  // ---------- unread bits ----------

  /** Both payloads are long enough and carry the same bits in all non-constant fields. */
  ghost predicate AgreeOnFields(schema: Schema, report: Report, p: seq<uint8>, q: seq<uint8>)
    requires Linked(schema.fields, report)
  {
    && |p| >= report.ByteSize() && |q| >= report.ByteSize()
    && forall i | 0 <= i < |report.fieldIds| :: AgreeOnField(schema.fields[report.fieldIds[i]], p, q)
  }

  ghost predicate AgreeOnField(field: Field, p: seq<uint8>, q: seq<uint8>) {
    !field.IsConstant() ==>
      && field.End() <= 8 * |p| && field.End() <= 8 * |q|
      && forall k | field.bitOffset <= k < field.End() :: BitAt(p, k) == BitAt(q, k)
  }

  lemma SameReading(field: Field, p: seq<uint8>, q: seq<uint8>, index: nat)
    requires !field.IsConstant() && AgreeOnField(field, p, q) && index < field.reportCount
    ensures Reading(field, index, p) == Reading(field, index, q)
  {
    hide BitAt, Pow2, FromBits;
    ScalarInsideField(field, index);
    var offset := field.Position(index);
    assert BitSlice(p, offset, field.reportSize) == BitSlice(q, offset, field.reportSize);
  }

  lemma {:induction false} SameScalarEvents(schema: Schema, report: Report, field: Field, lasts: seq<int>,
                                            p: seq<uint8>, q: seq<uint8>, n: nat)
    requires !field.IsConstant() && AgreeOnField(field, p, q) && n <= field.reportCount
    ensures ScalarEvents(schema, report, field, lasts, p, n) == ScalarEvents(schema, report, field, lasts, q, n)
  {
    hide Reading, Emits, AgreeOnField, ScalarValue;
    if n > 0 {
      SameScalarEvents(schema, report, field, lasts, p, q, n - 1);
      SameReading(field, p, q, n - 1);
    }
  }

  lemma {:induction false} SameCurrent(field: Field, p: seq<uint8>, q: seq<uint8>, n: nat)
    requires !field.IsConstant() && AgreeOnField(field, p, q) && n <= field.reportCount
    ensures Current(field, p, n) == Current(field, q, n)
  {
    hide Reading, AgreeOnField, Emplace;
    if n > 0 {
      SameCurrent(field, p, q, n - 1);
      SameReading(field, p, q, n - 1);
    }
  }

  lemma SameFieldResult(schema: Schema, report: Report, field: Field, runtime: FieldRuntime, p: seq<uint8>,
                        q: seq<uint8>)
    requires AgreeOnField(field, p, q)
    requires !field.IsConstant() ==> |runtime.lastValues| == field.reportCount
    ensures FieldEvents(schema, report, field, runtime, p) == FieldEvents(schema, report, field, runtime, q)
    ensures FieldAfter(field, runtime, p) == FieldAfter(field, runtime, q)
    ensures |FieldAfter(field, runtime, p).lastValues| == |runtime.lastValues|
  {
    hide Reading, AgreeOnField, Emits, Current, ScalarEvents, ArrayEvents;
    if !field.IsConstant() {
      SameScalarEvents(schema, report, field, runtime.lastValues, p, q, field.reportCount);
      SameCurrent(field, p, q, field.reportCount);
      forall i | 0 <= i < field.reportCount
        ensures NewLast(field, runtime.lastValues, p, i) == NewLast(field, runtime.lastValues, q, i)
      {
        SameReading(field, p, q, i);
      }
      hide NewLast;
      assert NewLasts(field, runtime.lastValues, p, field.reportCount)
        == NewLasts(field, runtime.lastValues, q, field.reportCount);
    }
  }

  /** Stored runtimes have one last value for each scalar of their field. */
  ghost predicate RuntimeFits(schema: Schema, runtime: Runtime) {
    forall f | 0 <= f < |schema.fields| ::
      |RuntimeOf(runtime, schema.fields[f]).lastValues| == schema.fields[f].reportCount
  }

  ghost predicate IdsMatch(schema: Schema) {
    forall f | 0 <= f < |schema.fields| :: schema.fields[f].id == f
  }

  lemma FieldAfterFits(schema: Schema, runtime: Runtime, field: Field, data: seq<uint8>)
    requires IdsMatch(schema) && RuntimeFits(schema, runtime) && field.id < |schema.fields|
    requires field == schema.fields[field.id]
    ensures RuntimeFits(schema, runtime[field.id := FieldAfter(field, RuntimeOf(runtime, field), data)])
  {
    hide Current, NewLast;
    var runtime' := runtime[field.id := FieldAfter(field, RuntimeOf(runtime, field), data)];
    assert |RuntimeOf(runtime, field).lastValues| == field.reportCount;
    forall f | 0 <= f < |schema.fields|
      ensures |RuntimeOf(runtime', schema.fields[f]).lastValues| == schema.fields[f].reportCount
    {
      assert schema.fields[f].id == f;
      assert |RuntimeOf(runtime, schema.fields[f]).lastValues| == schema.fields[f].reportCount;
    }
  }

  lemma {:induction false} RuntimeKeepsFitting(schema: Schema, report: Report, runtime: Runtime, data: seq<uint8>,
                                               n: nat)
    requires IdsMatch(schema) && Linked(schema.fields, report) && RuntimeFits(schema, runtime)
    requires n <= |report.fieldIds|
    ensures RuntimeFits(schema, RuntimeAfter(schema, report, runtime, data, n))
  {
    hide RuntimeFits, FieldAfter, RuntimeOf;
    if n > 0 {
      RuntimeKeepsFitting(schema, report, runtime, data, n - 1);
      FieldAfterFits(schema, RuntimeAfter(schema, report, runtime, data, n - 1), schema.fields[report.fieldIds[n - 1]],
                     data);
    }
  }

  lemma FitsAt(schema: Schema, runtime: Runtime, f: nat)
    requires RuntimeFits(schema, runtime) && f < |schema.fields|
    ensures |RuntimeOf(runtime, schema.fields[f]).lastValues| == schema.fields[f].reportCount
  {
  }

  /** Emissions and next state depend only on the bits of the non-constant fields: padding inside
      the report and bytes behind it are never looked at. */
  lemma {:induction false} UnreadBitsInvisible(schema: Schema, report: Report, runtime: Runtime,
                                               p: seq<uint8>, q: seq<uint8>, n: nat)
    requires IdsMatch(schema) && Linked(schema.fields, report) && RuntimeFits(schema, runtime)
    requires AgreeOnFields(schema, report, p, q) && n <= |report.fieldIds|
    ensures ReportEvents(schema, report, runtime, p, n) == ReportEvents(schema, report, runtime, q, n)
    ensures RuntimeAfter(schema, report, runtime, p, n) == RuntimeAfter(schema, report, runtime, q, n)
  {
    hide RuntimeFits, FieldAfter, FieldEvents, RuntimeOf, AgreeOnField;
    if n > 0 {
      var field := schema.fields[report.fieldIds[n - 1]];
      var before := RuntimeAfter(schema, report, runtime, p, n - 1);
      UnreadBitsInvisible(schema, report, runtime, p, q, n - 1);
      RuntimeKeepsFitting(schema, report, runtime, p, n - 1);
      FitsAt(schema, before, report.fieldIds[n - 1]);
      SameFieldResult(schema, report, field, RuntimeOf(before, field), p, q);
    }
  }

  /** Bytes behind a complete report change nothing but the status, from Exact to Long. */
  lemma TrailingBytesOnlyChangeStatus(schema: Schema, runtime: Runtime, source: Source, bytes: seq<uint8>,
                                      more: seq<uint8>)
    requires WellFormed(schema) && AllLinked(schema) && RuntimeFits(schema, runtime) && more != []
    requires RouteOf(schema, source, Bytes(bytes)).Decode?
    ensures var short, longer := RouteOf(schema, source, Bytes(bytes)), RouteOf(schema, source, Bytes(bytes + more));
      longer.Decode? && longer.report == short.report && longer.status == Long
    ensures ParseEvents(schema, runtime, source, Bytes(bytes + more))
      == ParseEvents(schema, runtime, source, Bytes(bytes))
    ensures ParseRuntime(schema, runtime, source, Bytes(bytes + more))
      == ParseRuntime(schema, runtime, source, Bytes(bytes))
  {
    var r := RouteOf(schema, source, Bytes(bytes)).report;
    var report := schema.reports[r];
    PrefixAgrees(schema, r, bytes, more);
    WellFormedIds(schema);
    hide WellFormed, AgreeOnFields, RuntimeFits, ReportEvents, RuntimeAfter, IdsMatch;
    assert Linked(schema.fields, report);
    UnreadBitsInvisible(schema, report, runtime, bytes, bytes + more, |report.fieldIds|);
  }

  lemma WellFormedIds(schema: Schema)
    requires WellFormed(schema)
    ensures IdsMatch(schema)
  {
    forall f | 0 <= f < |schema.fields|
      ensures schema.fields[f].id == f
    {
      assert FieldOk(schema, f);
    }
  }

  lemma PrefixAgrees(schema: Schema, r: nat, bytes: seq<uint8>, more: seq<uint8>)
    requires WellFormed(schema) && r < |schema.reports| && |bytes| >= schema.reports[r].ByteSize()
    ensures Linked(schema.fields, schema.reports[r])
    ensures AgreeOnFields(schema, schema.reports[r], bytes, bytes + more)
  {
    WellFormedIsLinked(schema);
    var report := schema.reports[r];
    assert Linked(schema.fields, report);
    assert Tiled(schema.fields, report);
    forall i | 0 <= i < |report.fieldIds|
      ensures AgreeOnField(schema.fields[report.fieldIds[i]], bytes, bytes + more)
    {
      FieldBeforeEnd(schema.fields, report, i);
    }
  }

  // ---------- other reports ----------

  /** The payloads that a run delivers to one report. */
  function Routed(schema: Schema, r: nat, run: seq<Delivery>, n: nat): seq<seq<uint8>>
    requires n <= |run|
  {
    if n == 0 then []
    else
      var route := RouteOf(schema, run[n - 1].source, run[n - 1].payload);
      Routed(schema, r, run, n - 1) + (if route.Decode? && route.report == r then [route.bytes] else [])
  }

  /** The emissions that carry a report id, with the handle that delivered them blanked out. */
  function OfReport(events: seq<Value>, reportId: uint8): seq<Value> {
    if events == [] then []
    else
      var last := events[|events| - 1];
      OfReport(events[..|events| - 1], reportId) + (if last.reportId == reportId then [last.(handle := 0)] else [])
  }

  lemma {:induction false} OfReportConcat(a: seq<Value>, b: seq<Value>, reportId: uint8)
    ensures OfReport(a + b, reportId) == OfReport(a, reportId) + OfReport(b, reportId)
  {
    if b == [] {
      assert a + b == a;
    } else {
      assert (a + b)[..|a + b| - 1] == a + b[..|b| - 1];
      OfReportConcat(a, b[..|b| - 1], reportId);
    }
  }

  lemma {:induction false} OfReportAll(events: seq<Value>, reportId: uint8)
    requires forall e | 0 <= e < |events| :: events[e].reportId == reportId
    ensures OfReport(events, reportId) == Stamp(events, 0)
  {
    if events != [] {
      OfReportAll(events[..|events| - 1], reportId);
    }
  }

  lemma {:induction false} OfReportNothing(events: seq<Value>, reportId: uint8)
    requires forall e | 0 <= e < |events| :: events[e].reportId != reportId
    ensures OfReport(events, reportId) == []
  {
    if events != [] {
      OfReportNothing(events[..|events| - 1], reportId);
    }
  }

  /** The emissions of one field are a part of those of its report. */
  lemma {:induction false} SelectOfReport(events: seq<Value>, reportId: uint8, fieldId: nat)
    ensures Stamp(Select(events, reportId, fieldId), 0) == Select(OfReport(events, reportId), reportId, fieldId)
  {
    if events != [] {
      var n := |events| - 1;
      var last := events[n];
      SelectOfReport(events[..n], reportId, fieldId);
      var mine := OfReport(events[..n], reportId);
      SelectOne(last.(handle := 0), reportId, fieldId);
      SelectConcat(mine, [last.(handle := 0)], reportId, fieldId);
      StampAppend(Select(events[..n], reportId, fieldId), last, 0);
      assert mine + [] == mine;
      assert Select(events[..n], reportId, fieldId) + [] == Select(events[..n], reportId, fieldId);
    }
  }

  lemma SelectOne(v: Value, reportId: uint8, fieldId: nat)
    ensures Select([v], reportId, fieldId) == if v.reportId == reportId && v.fieldId == fieldId then [v] else []
  {
  }

  lemma StampAppend(values: seq<Value>, v: Value, handle: uint16)
    ensures Stamp(values + [v], handle) == Stamp(values, handle) + [v.(handle := handle)]
  {
  }

  /** What a fresh decoder emits that is sent the payloads of one report and nothing else. */
  function OwnEvents(schema: Schema, r: nat, payloads: seq<seq<uint8>>, n: nat): seq<Value>
    requires AllLinked(schema) && r < |schema.reports| && n <= |payloads|
  {
    if n == 0 then []
    else
      var report := schema.reports[r];
      OwnEvents(schema, r, payloads, n - 1)
        + Stamp(ReportEvents(schema, report, OwnRuntime(schema, r, payloads, n - 1), payloads[n - 1],
                             |report.fieldIds|), 0)
  }

  function OwnRuntime(schema: Schema, r: nat, payloads: seq<seq<uint8>>, n: nat): Runtime
    requires AllLinked(schema) && r < |schema.reports| && n <= |payloads|
  {
    if n == 0 then map[]
    else
      var report := schema.reports[r];
      RuntimeAfter(schema, report, OwnRuntime(schema, r, payloads, n - 1), payloads[n - 1], |report.fieldIds|)
  }

  lemma {:induction false} OwnPrefix(schema: Schema, r: nat, payloads: seq<seq<uint8>>, more: seq<seq<uint8>>, n: nat)
    requires AllLinked(schema) && r < |schema.reports| && n <= |payloads|
    ensures OwnEvents(schema, r, payloads + more, n) == OwnEvents(schema, r, payloads, n)
    ensures OwnRuntime(schema, r, payloads + more, n) == OwnRuntime(schema, r, payloads, n)
  {
    hide ReportEvents, RuntimeAfter, AllLinked;
    if n > 0 {
      OwnPrefix(schema, r, payloads, more, n - 1);
    }
  }

  /** Two runtimes store the same for every field of a report. */
  ghost predicate SameFor(schema: Schema, r: nat, a: Runtime, b: Runtime)
    requires AllLinked(schema) && r < |schema.reports|
  {
    forall i | 0 <= i < |schema.reports[r].fieldIds| ::
      RuntimeOf(a, FieldAt(schema, r, i)) == RuntimeOf(b, FieldAt(schema, r, i))
  }

  /** A report's emissions depend on the stored state of its own fields alone. */
  lemma {:induction false} ReportIsLocal(schema: Schema, r: nat, a: Runtime, b: Runtime, data: seq<uint8>, n: nat)
    requires WellFormed(schema) && AllLinked(schema) && r < |schema.reports| && n <= |schema.reports[r].fieldIds|
    requires SameFor(schema, r, a, b)
    ensures ReportEvents(schema, schema.reports[r], a, data, n) == ReportEvents(schema, schema.reports[r], b, data, n)
  {
    hide WellFormed, Apart, RuntimeOf, RuntimeAfter, FieldEvents;
    if n > 0 {
      ReportIsLocal(schema, r, a, b, data, n - 1);
      FieldsOfReportApart(schema, r, n - 1);
      FieldAlone(schema, schema.reports[r], n - 1, a, data, n - 1);
      FieldAlone(schema, schema.reports[r], n - 1, b, data, n - 1);
      assert RuntimeOf(a, FieldAt(schema, r, n - 1)) == RuntimeOf(b, FieldAt(schema, r, n - 1));
    }
  }

  lemma SameForAfter(schema: Schema, r: nat, a: Runtime, b: Runtime, data: seq<uint8>)
    requires WellFormed(schema) && AllLinked(schema) && r < |schema.reports| && SameFor(schema, r, a, b)
    ensures var report := schema.reports[r]; var n := |report.fieldIds|;
      SameFor(schema, r, RuntimeAfter(schema, report, a, data, n), RuntimeAfter(schema, report, b, data, n))
  {
    hide WellFormed, Apart, RuntimeOf, RuntimeAfter, FieldAfter;
    var report := schema.reports[r];
    var n := |report.fieldIds|;
    forall i | 0 <= i < n
      ensures RuntimeOf(RuntimeAfter(schema, report, a, data, n), FieldAt(schema, r, i))
        == RuntimeOf(RuntimeAfter(schema, report, b, data, n), FieldAt(schema, r, i))
    {
      FieldsOfReportApart(schema, r, i);
      FieldAlone(schema, report, i, a, data, n);
      FieldAlone(schema, report, i, b, data, n);
      assert RuntimeOf(a, FieldAt(schema, r, i)) == RuntimeOf(b, FieldAt(schema, r, i));
    }
  }

  /** Decoding another report leaves this one's state alone and emits under other ids. */
  lemma OtherReportSilent(schema: Schema, q: nat, r: nat, a: Runtime, b: Runtime, data: seq<uint8>, handle: uint16)
    requires WellFormed(schema) && AllLinked(schema) && q < |schema.reports| && r < |schema.reports| && q != r
    requires schema.reports[q].kind == Input && schema.reports[r].kind == Input && SameFor(schema, r, a, b)
    ensures var other := schema.reports[q]; var n := |other.fieldIds|;
      && SameFor(schema, r, RuntimeAfter(schema, other, a, data, n), b)
      && OfReport(Stamp(ReportEvents(schema, other, a, data, n), handle), schema.reports[r].reportId) == []
  {
    DistinctIds(schema, q, r);
    hide WellFormed, RuntimeOf, RuntimeAfter, ReportEvents, OfReport;
    var other := schema.reports[q];
    var n := |other.fieldIds|;
    forall i | 0 <= i < |schema.reports[r].fieldIds|
      ensures RuntimeOf(RuntimeAfter(schema, other, a, data, n), FieldAt(schema, r, i))
        == RuntimeOf(b, FieldAt(schema, r, i))
    {
      OtherReportsUntouched(schema, q, r, i, a, data, n);
      assert RuntimeOf(a, FieldAt(schema, r, i)) == RuntimeOf(b, FieldAt(schema, r, i));
    }
    EventsCarryReportId(schema, q, a, data, n);
    OfReportNothing(Stamp(ReportEvents(schema, other, a, data, n), handle), schema.reports[r].reportId);
  }

  lemma DistinctIds(schema: Schema, q: nat, r: nat)
    requires WellFormed(schema) && q < |schema.reports| && r < |schema.reports| && q != r
    requires schema.reports[q].kind == schema.reports[r].kind
    ensures schema.reports[q].reportId != schema.reports[r].reportId
  {
    assert UniqueReports(schema.reports);
  }

  /** Decoding this report emits, up to the handle, what it emits from any state that agrees on it. */
  lemma OwnReportEmits(schema: Schema, r: nat, a: Runtime, b: Runtime, data: seq<uint8>, handle: uint16)
    requires WellFormed(schema) && AllLinked(schema) && r < |schema.reports| && SameFor(schema, r, a, b)
    ensures var report := schema.reports[r]; var n := |report.fieldIds|;
      OfReport(Stamp(ReportEvents(schema, report, a, data, n), handle), report.reportId)
        == Stamp(ReportEvents(schema, report, b, data, n), 0)
  {
    hide WellFormed, SameFor, ReportEvents, OfReport;
    var report := schema.reports[r];
    var n := |report.fieldIds|;
    ReportIsLocal(schema, r, a, b, data, n);
    EventsCarryReportId(schema, r, a, data, n);
    var events := ReportEvents(schema, report, a, data, n);
    OfReportAll(Stamp(events, handle), report.reportId);
    assert Stamp(Stamp(events, handle), 0) == Stamp(events, 0);
  }

  /** One delivery, in a state that agrees on the report with that of a decoder of its own. */
  lemma DeliveryIsOwn(schema: Schema, r: nat, a: Runtime, own: Runtime, d: Delivery)
    requires WellFormed(schema) && AllLinked(schema) && r < |schema.reports| && schema.reports[r].kind == Input
    requires SameFor(schema, r, a, own)
    ensures var report, route := schema.reports[r], RouteOf(schema, d.source, d.payload);
      var mine := route.Decode? && route.report == r;
      && OfReport(ParseEvents(schema, a, d.source, d.payload), report.reportId)
         == (if mine then Stamp(ReportEvents(schema, report, own, route.bytes, |report.fieldIds|), 0) else [])
      && SameFor(schema, r, ParseRuntime(schema, a, d.source, d.payload),
                 if mine then RuntimeAfter(schema, report, own, route.bytes, |report.fieldIds|) else own)
  {
    RoutedIsInput(schema, d);
    hide WellFormed, RouteOf, ReportEvents, RuntimeAfter, RuntimeOf, OfReport, SameFor;
    var route := RouteOf(schema, d.source, d.payload);
    if route.Reject? {
      NothingOfReport(schema.reports[r].reportId);
    } else if route.report == r {
      OwnReportEmits(schema, r, a, own, route.bytes, d.source.handle);
      SameForAfter(schema, r, a, own, route.bytes);
    } else {
      OtherReportSilent(schema, route.report, r, a, own, route.bytes, d.source.handle);
    }
  }

  lemma SameAtStart(schema: Schema, r: nat)
    requires AllLinked(schema) && r < |schema.reports|
    ensures SameFor(schema, r, map[], map[])
  {
  }

  lemma OwnLast(schema: Schema, r: nat, payloads: seq<seq<uint8>>, bytes: seq<uint8>)
    requires AllLinked(schema) && r < |schema.reports|
    ensures var report, n, more := schema.reports[r], |payloads|, payloads + [bytes];
      && OwnEvents(schema, r, more, n + 1)
         == OwnEvents(schema, r, payloads, n)
              + Stamp(ReportEvents(schema, report, OwnRuntime(schema, r, payloads, n), bytes, |report.fieldIds|), 0)
      && OwnRuntime(schema, r, more, n + 1)
         == RuntimeAfter(schema, report, OwnRuntime(schema, r, payloads, n), bytes, |report.fieldIds|)
  {
    hide ReportEvents, RuntimeAfter, AllLinked;
    OwnPrefix(schema, r, payloads, [bytes], |payloads|);
  }

  /** Over any run, what carries a report's id is what a decoder of its own would have emitted for
      the payloads that were routed to it. */
  lemma {:induction false} ReportReplay(schema: Schema, r: nat, run: seq<Delivery>, n: nat)
    requires WellFormed(schema) && AllLinked(schema) && r < |schema.reports| && schema.reports[r].kind == Input
    requires n <= |run|
    ensures var payloads := Routed(schema, r, run, n);
      && OfReport(RunEvents(schema, run, n), schema.reports[r].reportId) == OwnEvents(schema, r, payloads, |payloads|)
      && SameFor(schema, r, RunRuntime(schema, run, n), OwnRuntime(schema, r, payloads, |payloads|))
  {
    hide WellFormed, RouteOf, ReportEvents, RuntimeAfter, OfReport, AllLinked, SameFor, ParseEvents, ParseRuntime;
    if n == 0 {
      NothingOfReport(schema.reports[r].reportId);
      SameAtStart(schema, r);
    } else {
      hide OwnEvents, OwnRuntime;
      var d, before := run[n - 1], RunRuntime(schema, run, n - 1);
      var payloads, route := Routed(schema, r, run, n - 1), RouteOf(schema, d.source, d.payload);
      ReportReplay(schema, r, run, n - 1);
      OfReportConcat(RunEvents(schema, run, n - 1), ParseEvents(schema, before, d.source, d.payload),
                     schema.reports[r].reportId);
      DeliveryIsOwn(schema, r, before, OwnRuntime(schema, r, payloads, |payloads|), d);
      if route.Decode? && route.report == r {
        OwnLast(schema, r, payloads, route.bytes);
      } else {
        assert payloads + [] == payloads;
      }
    }
  }

  lemma RoutedIsInput(schema: Schema, d: Delivery)
    ensures var route := RouteOf(schema, d.source, d.payload);
      route.Decode? ==> route.report < |schema.reports| && schema.reports[route.report].kind == Input
  {
  }

  lemma NothingOfReport(reportId: uint8)
    ensures OfReport([], reportId) == []
  {
  }

  /** Reports with other ids, rejected payloads and foreign characteristics may be interleaved in
      any way: all that carries a report's id, and with it the stream of every scalar and array of
      the report, is a function of the report's own payloads. */
  lemma InterleavingInvisible(schema: Schema, r: nat, a: seq<Delivery>, b: seq<Delivery>)
    requires WellFormed(schema) && AllLinked(schema) && r < |schema.reports| && schema.reports[r].kind == Input
    requires Routed(schema, r, a, |a|) == Routed(schema, r, b, |b|)
    ensures var id := schema.reports[r].reportId;
      && OfReport(RunEvents(schema, a, |a|), id) == OfReport(RunEvents(schema, b, |b|), id)
      && forall fieldId: nat ::
           && Stamp(Select(RunEvents(schema, a, |a|), id, fieldId), 0)
              == Stamp(Select(RunEvents(schema, b, |b|), id, fieldId), 0)
           && AtKey(RunEvents(schema, a, |a|), id, fieldId) == AtKey(RunEvents(schema, b, |b|), id, fieldId)
  {
    hide WellFormed, AllLinked, RunEvents, OfReport, Select, SameFor;
    var id := schema.reports[r].reportId;
    var x, y := RunEvents(schema, a, |a|), RunEvents(schema, b, |b|);
    ReportReplay(schema, r, a, |a|);
    ReportReplay(schema, r, b, |b|);
    forall fieldId: nat
      ensures Stamp(Select(x, id, fieldId), 0) == Stamp(Select(y, id, fieldId), 0)
      ensures AtKey(x, id, fieldId) == AtKey(y, id, fieldId)
    {
      SelectOfReport(x, id, fieldId);
      SelectOfReport(y, id, fieldId);
      StampKeepsValues(Select(x, id, fieldId), 0);
      StampKeepsValues(Select(y, id, fieldId), 0);
    }
  }

  lemma StampKeepsValues(values: seq<Value>, handle: uint16)
    ensures ValuesOf(Stamp(values, handle)) == ValuesOf(values)
  {
  }

  // ---------- keys ----------

  /** Among the input reports of a schema, report id and bit position name one scalar. */
  lemma KeysIdentifyScalars(schema: Schema, r: nat, i: nat, a: nat, q: nat, j: nat, b: nat)
    requires WellFormed(schema) && IsScalar(schema, r, i, a) && IsScalar(schema, q, j, b)
    requires schema.reports[r].kind == Input && schema.reports[q].kind == Input
    requires schema.reports[r].reportId == schema.reports[q].reportId
    requires FieldAt(schema, r, i).Position(a) == FieldAt(schema, q, j).Position(b)
    ensures r == q && i == j && a == b
  {
    FieldAtOk(schema, r, i);
    FieldAtOk(schema, q, j);
    ScalarInsideField(FieldAt(schema, r, i), a);
    ScalarInsideField(FieldAt(schema, q, j), b);
    assert UniqueReports(schema.reports);
    assert r == q;
    hide WellFormed;
    if i != j {
      FieldsApart(schema, r, i, j);
    }
    PositionInjective(FieldAt(schema, r, i), a, b);
  }

  /** The boot decoder's axis ids can never be a descriptor-defined bit position. */
  lemma PositionsBelowBootIds(schema: Schema, r: nat, i: nat, index: nat)
    requires WellFormed(schema) && IsScalar(schema, r, i, index)
    ensures FieldAt(schema, r, i).Position(index) < MAX_REPORT_BITS < AXIS_X_FIELD < AXIS_Y_FIELD
  {
    FieldAtOk(schema, r, i);
    assert Tiled(schema.fields, schema.reports[r]);
    FieldBeforeEnd(schema.fields, schema.reports[r], i);
    ScalarInsideField(FieldAt(schema, r, i), index);
  }

  /** All emissions at a scalar's key agree on usage, application and aggregation. */
  lemma {:induction false} KeyHasOneMeaning(schema: Schema, r: nat, i: nat, index: nat, run: seq<Delivery>, n: nat)
    requires WellFormed(schema) && AllLinked(schema) && IsScalar(schema, r, i, index) && n <= |run|
    requires schema.reports[r].kind == Input
    ensures var field := FieldAt(schema, r, i);
      forall v | v in Select(RunEvents(schema, run, n), schema.reports[r].reportId, field.Position(index)) ::
        && v.usage == field.UsageAt(index, true) && v.isRelative == field.IsRelative()
        && v.aggregation == AggregationOf(field, v.usage) && v.raw == v.value
        && v.application == ApplicationUsage(schema.collections, field.collectionId)
  {
    hide WellFormed, ParseEvents, Select, ReadingOf, Emits, LastAt, AggregationOf, ApplicationUsage;
    var field, report := FieldAt(schema, r, i), schema.reports[r];
    if n == 0 {
      SelectNothing([], report.reportId, field.Position(index));
    } else {
      var d, before := run[n - 1], RunRuntime(schema, run, n - 1);
      KeyHasOneMeaning(schema, r, i, index, run, n - 1);
      ScalarReplay(schema, r, i, index, run, n - 1);
      ScalarDelivery(schema, r, i, index, before, d);
      SelectConcat(RunEvents(schema, run, n - 1), ParseEvents(schema, before, d.source, d.payload),
                   report.reportId, field.Position(index));
    }
  }
}
