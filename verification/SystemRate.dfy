/** The rate bound and the provenance of emissions for the whole component: one report never brings a
    key two mergeable values, whatever its report map says. */
module SystemRate {
  import opened Integers
  import opened HidSchema
  import opened HidDecoder
  import opened HidReplay
  import B = BootDecoder
  import Q = ReportQueue
  import opened EventBuffer
  import C = Coalescing
  import R = CoalescingRefinement
  import Rate = CoalescingRate
  import opened EndToEnd

  // ---------- the rate bound of the whole system ----------

  /** No two mergeable values share a field id. */
  ghost predicate MergeableApart(values: seq<Value>) {
    forall i, j | 0 <= i < j < |values| && values[i].aggregation != Passthrough
      && values[j].aggregation != Passthrough ::
      values[i].fieldId != values[j].fieldId
  }

  ghost predicate FieldIdsIn(values: seq<Value>, low: nat, high: nat) {
    forall i | 0 <= i < |values| :: low <= values[i].fieldId < high
  }

  lemma ApartConcat(a: seq<Value>, b: seq<Value>, low: nat, middle: nat, high: nat)
    requires MergeableApart(a) && MergeableApart(b) && FieldIdsIn(a, low, middle) && FieldIdsIn(b, middle, high)
    ensures MergeableApart(a + b)
  {
  }

  lemma InConcat(a: seq<Value>, b: seq<Value>, low: nat, middle: nat, high: nat)
    requires FieldIdsIn(a, low, middle) && FieldIdsIn(b, middle, high) && low <= middle <= high
    ensures FieldIdsIn(a + b, low, high)
  {
  }

  lemma {:induction false} ScalarsApart(schema: Schema, report: Report, field: Field, lasts: seq<int>,
                                        data: seq<uint8>, n: nat)
    requires field.reportSize >= 1 && n <= field.reportCount
    ensures FieldIdsIn(ScalarEvents(schema, report, field, lasts, data, n), field.bitOffset, field.Position(n))
    ensures MergeableApart(ScalarEvents(schema, report, field, lasts, data, n))
  {
    hide Emits, Reading, ApplicationUsage, AggregationOf;
    if n > 0 {
      ScalarsApart(schema, report, field, lasts, data, n - 1);
      var before, after := ScalarEvents(schema, report, field, lasts, data, n - 1),
        ScalarEvents(schema, report, field, lasts, data, n);
      assert field.Position(n) == field.Position(n - 1) + field.reportSize && field.bitOffset <= field.Position(n - 1);
      var last := after[|before|..];
      assert after == before + last && FieldIdsIn(last, field.Position(n - 1), field.Position(n));
      ApartConcat(before, last, field.bitOffset, field.Position(n - 1), field.Position(n));
    }
  }

  lemma FieldApart(schema: Schema, report: Report, field: Field, runtime: FieldRuntime, data: seq<uint8>)
    requires field.reportSize >= 1 && field.reportCount >= 1
    ensures MergeableApart(FieldEvents(schema, report, field, runtime, data))
    ensures FieldIdsIn(FieldEvents(schema, report, field, runtime, data), field.bitOffset, field.End())
  {
    FieldEventsInField(schema, report, field, runtime, data);
    if field.IsVariable() {
      ScalarsApart(schema, report, field, runtime.lastValues, data, field.reportCount);
    }
  }

  /** Bits that the first `n` fields of a report occupy. */
  function Reach(schema: Schema, report: Report, n: nat): nat
    requires Linked(schema.fields, report) && n <= |report.fieldIds|
  {
    if n == 0 then 0 else schema.fields[report.fieldIds[n - 1]].End()
  }

  lemma ReachStep(schema: Schema, r: nat, n: nat)
    requires WellFormed(schema) && r < |schema.reports| && 0 < n <= |schema.reports[r].fieldIds|
    ensures Linked(schema.fields, schema.reports[r])
    ensures Reach(schema, schema.reports[r], n - 1) == FieldAt(schema, r, n - 1).bitOffset
    ensures Reach(schema, schema.reports[r], n) == FieldAt(schema, r, n - 1).End() <= MAX_REPORT_BITS
    ensures FieldAt(schema, r, n - 1).reportSize >= 1 && FieldAt(schema, r, n - 1).reportCount >= 1
    ensures FieldAt(schema, r, n - 1).bitOffset <= FieldAt(schema, r, n - 1).End()
  {
    FieldAtOk(schema, r, n - 1);
    assert Tiled(schema.fields, schema.reports[r]);
    FieldBeforeEnd(schema.fields, schema.reports[r], n - 1);
    ScalarInsideField(FieldAt(schema, r, n - 1), 0);
  }

  /** One report emits at most one mergeable value per bit position, all below the report limit. */
  lemma {:induction false} ReportApart(schema: Schema, r: nat, runtime: Runtime, data: seq<uint8>, n: nat)
    requires WellFormed(schema) && AllLinked(schema) && r < |schema.reports| && n <= |schema.reports[r].fieldIds|
    ensures MergeableApart(ReportEvents(schema, schema.reports[r], runtime, data, n))
    ensures FieldIdsIn(ReportEvents(schema, schema.reports[r], runtime, data, n), 0,
                       Reach(schema, schema.reports[r], n))
    ensures Reach(schema, schema.reports[r], n) <= MAX_REPORT_BITS
  {
    hide WellFormed, FieldEvents, RuntimeAfter, RuntimeOf, Reach, MergeableApart, FieldIdsIn;
    var report := schema.reports[r];
    if n == 0 {
      NothingApart(schema, report);
    } else {
      ReportApart(schema, r, runtime, data, n - 1);
      ReachStep(schema, r, n);
      var field := FieldAt(schema, r, n - 1);
      var state := RuntimeOf(RuntimeAfter(schema, report, runtime, data, n - 1), field);
      FieldApart(schema, report, field, state, data);
      var before, last := ReportEvents(schema, report, runtime, data, n - 1),
        FieldEvents(schema, report, field, state, data);
      ApartConcat(before, last, 0, field.bitOffset, field.End());
      InConcat(before, last, 0, field.bitOffset, field.End());
    }
  }

  lemma NothingApart(schema: Schema, report: Report)
    requires Linked(schema.fields, report)
    ensures MergeableApart([]) && FieldIdsIn([], 0, Reach(schema, report, 0))
      && Reach(schema, report, 0) <= MAX_REPORT_BITS
  {
  }

  lemma ParsedApart(schema: Schema, runtime: Runtime, source: Source, payload: Buffer)
    requires WellFormed(schema) && AllLinked(schema)
    ensures MergeableApart(ParseEvents(schema, runtime, source, payload))
    ensures FieldIdsIn(ParseEvents(schema, runtime, source, payload), 0, MAX_REPORT_BITS)
  {
    hide WellFormed, RouteOf, ReportEvents;
    var route := RouteOf(schema, source, payload);
    if route.Decode? {
      ReportApart(schema, route.report, runtime, route.bytes, |schema.reports[route.report].fieldIds|);
    }
  }

  lemma {:induction false} ButtonsAreBarriers(before: uint8, now: uint8, n: nat)
    requires n <= 3
    ensures forall v | v in B.ButtonEvents(before, now, n) ::
      v.aggregation == Passthrough && 0xF000 <= v.fieldId < 0xF003
  {
    hide B.Bit;
    if n > 0 {
      ButtonsAreBarriers(before, now, n - 1);
    }
  }

  lemma {:induction false} ModifiersAreBarriers(before: B.Modifiers, now: uint8, n: nat)
    requires n <= 8
    ensures forall v | v in B.ModifierEvents(before, now, n) :: v.aggregation == Passthrough && v.fieldId >= 0xF100
  {
    hide B.Bit;
    if n > 0 {
      ModifiersAreBarriers(before, now, n - 1);
    }
  }

  lemma {:induction false} KeysAreBarriers(a: set<uint8>, b: set<uint8>, value: int, n: nat)
    requires n <= 0x100
    ensures forall v | v in B.KeyEvents(a, b, value, n) :: v.aggregation == Passthrough && v.fieldId >= 0xF100
  {
    if n > 0 {
      KeysAreBarriers(a, b, value, n - 1);
    }
  }

  /** Of a boot report only the two axes are mergeable. */
  lemma BootApart(s: B.State, source: Source, payload: Buffer)
    ensures MergeableApart(B.DecodeEvents(s, source, payload))
    ensures forall v | v in B.DecodeEvents(s, source, payload) :: v.fieldId >= 0xF000
  {
    hide B.ButtonEvents, B.ModifierEvents, B.KeyEvents, B.PressedKeys;
    match B.BootRouteOf(source, payload) {
      case Ignored(_) =>
      case Mouse(_, bytes) => ButtonsAreBarriers(B.ButtonsOf(s, source.handle), bytes[0], 3);
      case Keyboard(_, bytes) =>
        var before, now := B.KeysOf(s, source.handle), B.PressedKeys(bytes, 8);
        ModifiersAreBarriers(B.ModifiersOf(s, source.handle), bytes[0], 8);
        KeysAreBarriers(now, before, 1, 0x100);
        KeysAreBarriers(before, now, 0, 0x100);
    }
  }

  lemma DecodedApart(maps: Maps, d: Decoders, report: Q.Report)
    requires MapsOk(maps)
    ensures MergeableApart(DecodeReport(maps, d, report).values)
  {
    hide B.DecodeEvents, ParseEvents, WellFormed;
    var service := report.source.serviceInstance;
    BootApart(d.boot, report.source, Bytes(report.payload));
    if service in maps {
      ParsedApart(maps[service], RuntimeIn(d, service), report.source, Bytes(report.payload));
    }
  }

  lemma InputIsOk(report: Q.Report, decoded: Decoded)
    requires MergeableApart(decoded.values)
    ensures Rate.InputOk(InputFor(report, decoded))
  {
  }

  /** For any report maps that compiled and any run of the main loop: of two emissions of one key with no
      barrier and no pressure flush between them, the later one is a sampling interval of real time behind
      the earlier one, where a timer flush counts as happening at the reading that found it due. */
  lemma SystemIsRated(maps: Maps, run: seq<Activity>, clock: nat -> nat, interval: uint32)
    requires MapsOk(maps) && Rate.Monotone(clock) && interval > 0
    ensures Rate.Rated(C.Run(clock, interval, Inputs(maps, run), |run|).emitted, interval)
  {
    hide DecodeReport, InputFor, Rate.InputOk, Rate.Rated, Rate.Monotone;
    var inputs := Inputs(maps, run);
    forall i | 0 <= i < |inputs|
      ensures Rate.InputOk(inputs[i])
    {
      match run[i] {
        case Idle => TickIsOk();
        case Dequeued(report) =>
          var d := DecodersAfter(maps, run, i);
          DecodedApart(maps, d, report);
          InputIsOk(report, DecodeReport(maps, d, report));
      }
    }
    Rate.RunIsRated(clock, interval, inputs, |run|);
  }

  lemma TickIsOk()
    ensures Rate.InputOk(C.Tick)
  {
  }

  // ---------- provenance ----------

  /** Reports come with ascending sequence numbers. */
  ghost predicate Numbered(run: seq<Activity>) {
    forall i, j | 0 <= i < j < |run| && run[i].Dequeued? && run[j].Dequeued? ::
      run[i].report.seqId < run[j].report.seqId
  }

  /** The reports that the first `n` activities process. */
  function Processed(run: seq<Activity>, n: nat): seq<Q.Report>
    requires n <= |run|
  {
    if n == 0 then []
    else match run[n - 1] case Idle => Processed(run, n - 1) case Dequeued(report) => Processed(run, n - 1) + [report]
  }

  /** The run processes what the queue handed over since some moment (the last connection, say). */
  ghost predicate FedBy(run: seq<Activity>, ops: seq<Q.Op>) {
    exists k: nat :: k <= |Q.Taken(ops, |ops|)| && Processed(run, |run|) == Q.Taken(ops, |ops|)[k..]
  }

  lemma {:induction false} InProcessed(run: seq<Activity>, n: nat, i: nat)
    requires i < n <= |run| && run[i].Dequeued?
    ensures run[i].report in Processed(run, n)
  {
    if i < n - 1 {
      InProcessed(run, n - 1, i);
    }
  }

  lemma {:induction false} ProcessedNumbered(run: seq<Activity>, n: nat, bound: nat)
    requires n <= |run| && Q.IdsAscend(Processed(run, n), bound)
    ensures forall i, j | 0 <= i < j < n && run[i].Dequeued? && run[j].Dequeued? ::
      run[i].report.seqId < run[j].report.seqId
  {
    if n > 0 {
      var before, all := Processed(run, n - 1), Processed(run, n);
      assert before == all[..|before|];
      ProcessedNumbered(run, n - 1, bound);
      forall i | 0 <= i < n - 1 && run[i].Dequeued? && run[n - 1].Dequeued?
        ensures run[i].report.seqId < run[n - 1].report.seqId
      {
        InProcessed(run, n - 1, i);
        var k :| 0 <= k < |before| && before[k] == run[i].report;
        assert all[k].seqId < all[|before|].seqId;
      }
    }
  }

  /** What a queue hands over is numbered. */
  lemma QueueNumbers(run: seq<Activity>, ops: seq<Q.Op>)
    requires FedBy(run, ops)
    ensures Numbered(run)
  {
    hide Q.IdsAscend, Q.Taken, Q.Run, Processed;
    var taken, s := Q.Taken(ops, |ops|), Q.Run(ops, |ops|);
    var k: nat :| k <= |taken| && Processed(run, |run|) == taken[k..];
    Q.TakenAscend(ops, |ops|);
    Q.SuffixAscends(taken, s.queue, k, s.nextSeqId);
    ProcessedNumbered(run, |run|, s.nextSeqId);
  }

  ghost predicate SpansAt(events: seq<HidEvent>, low: nat, high: nat) {
    forall i | 0 <= i < |events| :: low <= events[i].seqFrom && events[i].seqFrom == events[i].seqTo < high
  }

  lemma {:induction false} ProjectSpans(events: seq<HidEvent>, key: Key, low: nat, high: nat)
    requires SpansAt(events, low, high)
    ensures SpansAt(R.Project(events, key), low, high)
  {
    if events != [] {
      ProjectSpans(events[..|events| - 1], key, low, high);
    }
  }

  /** Of one report, at most one contribution reaches a key. */
  lemma {:induction false} OneContribution(events: seq<HidEvent>, key: Key)
    requires Rate.DistinctKeys(events)
    ensures forall i, j | 0 <= i < j < |R.Project(events, key)| ::
      R.Project(events, key)[i].IsBarrier() || R.Project(events, key)[j].IsBarrier()
    ensures forall i | 0 <= i < |R.Project(events, key)| ::
      R.Project(events, key)[i] in events && R.Relevant(R.Project(events, key)[i], key)
  {
    hide KeyOf, HidEvent.IsBarrier;
    if events != [] {
      var n := |events| - 1;
      assert Rate.DistinctKeys(events[..n]);
      OneContribution(events[..n], key);
      var before := R.Project(events[..n], key);
      forall i | 0 <= i < |before| && R.Relevant(events[n], key)
        ensures before[i].IsBarrier() || events[n].IsBarrier()
      {
        assert before[i] in events[..n];
        var k :| 0 <= k < n && events[k] == before[i];
        assert !Rate.SameKey(events[k], events[n]);
      }
    }
  }

  lemma AscendingConcat(a: seq<HidEvent>, b: seq<HidEvent>, low: nat, middle: nat, high: nat)
    requires R.Ascending(a) && SpansAt(a, low, middle) && SpansAt(b, middle, high)
    requires forall i, j | 0 <= i < j < |b| :: b[i].IsBarrier() || b[j].IsBarrier()
    ensures R.Ascending(a + b)
  {
    hide HidEvent.IsBarrier;
    forall i, j | 0 <= i < j < |a + b| && !(a + b)[i].IsBarrier() && !(a + b)[j].IsBarrier()
      ensures (a + b)[i].seqTo < (a + b)[j].seqFrom
    {
      if i < |a| && j >= |a| {
        assert (a + b)[j] == b[j - |a|];
      }
    }
  }

  /** First sequence number that no report among the first `n` activities has reached. */
  function NextSeq(run: seq<Activity>, n: nat): nat
    requires n <= |run|
  {
    if n == 0 then 0 else match run[n - 1] case Idle => NextSeq(run, n - 1) case Dequeued(report) => report.seqId + 1
  }

  lemma {:induction false} NextSeqBelow(run: seq<Activity>, n: nat, j: nat)
    requires Numbered(run) && n <= j < |run| && run[j].Dequeued?
    ensures NextSeq(run, n) <= run[j].report.seqId
  {
    if n > 0 {
      NextSeqBelow(run, n - 1, j);
    }
  }

  lemma SpansOfReport(report: Q.Report, decoded: Decoded)
    ensures SpansAt(C.PlainOf(InputFor(report, decoded)), report.seqId, report.seqId + 1)
  {
  }

  lemma PlainDistinct(report: Q.Report, decoded: Decoded)
    requires MergeableApart(decoded.values)
    ensures Rate.DistinctKeys(C.PlainOf(InputFor(report, decoded)))
  {
    InputIsOk(report, decoded);
  }

  lemma WiderSpans(events: seq<HidEvent>, low: nat, high: nat, low': nat, high': nat)
    requires SpansAt(events, low, high) && low' <= low && high <= high'
    ensures SpansAt(events, low', high')
  {
  }

  lemma SpansConcat(a: seq<HidEvent>, b: seq<HidEvent>, low: nat, high: nat)
    requires SpansAt(a, low, high) && SpansAt(b, low, high)
    ensures SpansAt(a + b, low, high)
  {
  }

  lemma {:induction false} PlainAscends(maps: Maps, run: seq<Activity>, n: nat, key: Key)
    requires MapsOk(maps) && Numbered(run) && n <= |run|
    ensures R.Ascending(R.Project(C.Plain(Inputs(maps, run), n), key))
    ensures SpansAt(C.Plain(Inputs(maps, run), n), 0, NextSeq(run, n))
  {
    hide DecodeReport, InputFor, C.PlainOf, R.Project, R.Ascending, SpansAt, Numbered, Rate.DistinctKeys, WellFormed,
      AllLinked;
    if n == 0 {
      NothingAscends(key);
    } else {
      var plain, more := C.Plain(Inputs(maps, run), n - 1), C.PlainOf(InputAt(maps, run, n - 1));
      PlainAscends(maps, run, n - 1, key);
      match run[n - 1] {
        case Idle => IdleAddsNothing(plain, more, key);
        case Dequeued(report) =>
          var d := DecodersAfter(maps, run, n - 1);
          var decoded := DecodeReport(maps, d, report);
          DecodedApart(maps, d, report);
          PlainDistinct(report, decoded);
          SpansOfReport(report, decoded);
          NextSeqBelow(run, n - 1, n - 1);
          R.ProjectConcat(plain, more, key);
          OneContribution(more, key);
          WiderSpans(plain, 0, NextSeq(run, n - 1), 0, report.seqId);
          ProjectSpans(plain, key, 0, report.seqId);
          ProjectSpans(more, key, report.seqId, report.seqId + 1);
          AscendingConcat(R.Project(plain, key), R.Project(more, key), 0, report.seqId, report.seqId + 1);
          WiderSpans(plain, 0, report.seqId, 0, report.seqId + 1);
          WiderSpans(more, report.seqId, report.seqId + 1, 0, report.seqId + 1);
          SpansConcat(plain, more, 0, report.seqId + 1);
      }
    }
  }

  lemma NothingAscends(key: Key)
    ensures R.Ascending(R.Project([], key)) && SpansAt([], 0, 0)
  {
  }

  lemma NumberedSpansAscend(maps: Maps, run: seq<Activity>, clock: nat -> nat, interval: uint32, key: Key)
    requires MapsOk(maps) && Numbered(run)
    ensures var shaped := R.Project(R.View(C.Run(clock, interval, Inputs(maps, run), |run|)), key);
      R.Spanned(shaped, R.Project(C.Plain(Inputs(maps, run), |run|), key)) && R.Ascending(shaped)
  {
    hide Numbered, R.Spanned, R.Ascending, SpansAt, R.Project, R.View, C.Plain, C.Run;
    PlainAscends(maps, run, |run|, key);
    R.SpansAscend(clock, interval, Inputs(maps, run), key);
  }

  /** For whatever the queue hands over: an emitted event of a key spans from the first to the last
      report that it stands for, and these spans are disjoint and ascend. */
  lemma SystemSpansAscend(maps: Maps, run: seq<Activity>, ops: seq<Q.Op>, clock: nat -> nat, interval: uint32, key: Key)
    requires MapsOk(maps) && FedBy(run, ops)
    ensures var shaped := R.Project(R.View(C.Run(clock, interval, Inputs(maps, run), |run|)), key);
      R.Spanned(shaped, R.Project(C.Plain(Inputs(maps, run), |run|), key)) && R.Ascending(shaped)
  {
    hide FedBy, Numbered, R.Spanned, R.Ascending, R.Project, R.View, C.Plain, C.Run;
    QueueNumbers(run, ops);
    NumberedSpansAscend(maps, run, clock, interval, key);
  }
}
