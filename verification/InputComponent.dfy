/** The input half of BLEClientHID: the main loop takes reports from the queue, the decoders turn them
    into values and the pipeline emits events. */
module InputComponent {
  import opened Integers
  import opened HidSchema
  import opened HidDecoder
  import HidIsolation
  import HidReportMap
  import B = BootDecoder
  import Q = ReportQueue
  import C = Coalescing
  import opened EndToEnd

  const MAX_REPORTS_PER_LOOP := 8

  class BLEClientHID {
    const reportMaps: map<uint16, HidReportMap.HIDReportMap>
    const bootDecoder: B.HIDBootReportDecoder
    const pipeline: C.InputPipeline
    const pendingReports: Q.PendingReports

    /** No two services share a report map object. */
    ghost predicate Separate() {
      forall a, b | a in reportMaps && b in reportMaps && reportMaps[a] == reportMaps[b] :: a == b
    }

    ghost predicate MapsValid()
      reads reportMaps.Values
    {
      forall s | s in reportMaps :: reportMaps[s].Valid()
    }

    ghost function Layouts(): Maps
      reads reportMaps.Values
    {
      map s | s in reportMaps :: reportMaps[s].Layout()
    }

    ghost function DecodersNow(): Decoders
      reads reportMaps.Values, bootDecoder
    {
      Decoders(bootDecoder.Snapshot(), map s | s in reportMaps :: reportMaps[s].runtime)
    }

    ghost function View(): System
      reads reportMaps.Values, bootDecoder, pipeline, pipeline.buffer
    {
      System(DecodersNow(), pipeline.Snapshot())
    }

    ghost predicate Valid()
      reads reportMaps.Values, pipeline, pipeline.buffer, pendingReports
    {
      Separate() && MapsValid() && pipeline.Valid() && pendingReports.Valid()
    }

    lemma LayoutsOk()
      requires MapsValid()
      ensures MapsOk(Layouts()) && forall s | s in reportMaps :: AllLinked(reportMaps[s].Layout())
    {
      forall s | s in reportMaps
        ensures WellFormed(reportMaps[s].Layout()) && AllLinked(reportMaps[s].Layout())
      {
        assert reportMaps[s].Valid();
        WellFormedIsLinked(reportMaps[s].Layout());
      }
    }

    constructor (reportMaps: map<uint16, HidReportMap.HIDReportMap>, clock: nat -> nat, interval: uint32)
      requires forall a, b | a in reportMaps && b in reportMaps && reportMaps[a] == reportMaps[b] :: a == b
      requires forall s | s in reportMaps :: reportMaps[s].Valid() && reportMaps[s].runtime == map[]
      ensures Valid() && this.reportMaps == reportMaps && pipeline.clock == clock && pipeline.interval == interval
      ensures View() == System(Fresh(Layouts()), C.IDLE) && pendingReports.queue == []
    {
      hide HidReportMap.HIDReportMap.Valid, HidReportMap.HIDReportMap.Layout;
      this.reportMaps := reportMaps;
      bootDecoder := new B.HIDBootReportDecoder();
      pipeline := new C.InputPipeline(clock, interval);
      pendingReports := new Q.PendingReports();
      new;
      assert DecodersNow().runtimes == Fresh(Layouts()).runtimes;
    }

    /** `parse` of one service's report map; the other maps stay as they are. */
    method ParseWith(service: uint16, source: Source, payload: Buffer)
      returns (values: seq<Value>, recognized: bool, status: Status)
      requires Separate() && MapsValid() && service in reportMaps && AllLinked(reportMaps[service].Layout())
      modifies reportMaps.Values
      ensures MapsValid() && Layouts() == old(Layouts())
      ensures var schema, runtime := Layouts()[service], old(DecodersNow()).runtimes[service];
        && values == ParseEvents(schema, runtime, source, payload)
        && status == RouteOf(schema, source, payload).status && recognized == Verdict(RouteOf(schema, source, payload))
        && DecodersNow()
           == old(DecodersNow()).(
                runtimes := old(DecodersNow()).runtimes[service := ParseRuntime(schema, runtime, source, payload)])
    {
      hide ParseEvents, ParseRuntime, RouteOf, WellFormed, AllLinked, HidIsolation.RuntimeFits;
      values, recognized, status := reportMaps[service].Parse(source, payload);
    }

    /** The dispatch between the boot decoder and the report map of the service. */
    method Decode(report: Q.Report) returns (values: seq<Value>, recognized: bool, status: Status)
      requires Valid()
      modifies bootDecoder, reportMaps.Values
      ensures Separate() && MapsValid() && Layouts() == old(Layouts()) && MapsOk(Layouts())
      ensures Decoded(values, recognized, status, DecodersNow()) == DecodeReport(Layouts(), old(DecodersNow()), report)
    {
      hide B.DecodeEvents, B.DecodeState, ParseEvents, ParseRuntime, RouteOf, WellFormed, AllLinked, B.BootRouteOf,
        HidReportMap.HIDReportMap.Valid, Verdict;
      LayoutsOk();
      var source := report.source;
      if source.uuid == BOOT_KEYBOARD || source.uuid == BOOT_MOUSE {
        values, status := bootDecoder.Decode(source, Bytes(report.payload));
        recognized := status == Exact || status == Status.Long;
        BootVerdict(source, Bytes(report.payload));
      } else if source.serviceInstance in reportMaps {
        values, recognized, status := ParseWith(source.serviceInstance, source, Bytes(report.payload));
      } else {
        values, recognized, status := [], false, SchemaMissing;
      }
    }

    /** An accepted boot report is one with a good status. */
    lemma BootVerdict(source: Source, payload: Buffer)
      ensures var route := B.BootRouteOf(source, payload);
        !route.Ignored? <==> route.status == Exact || route.status == Status.Long
    {
    }

    /** `process_input_report_`. */
    method ProcessInputReport(report: Q.Report)
      requires Valid()
      modifies bootDecoder, pipeline, pipeline.buffer, reportMaps.Values
      ensures Valid() && Layouts() == old(Layouts()) && MapsOk(Layouts())
      ensures View() == Act(Layouts(), old(View()), pipeline.clock, pipeline.interval, Dequeued(report))
    {
      hide DecodeReport, C.Process, MapsOk, EventsFor, EventOf, HidReportMap.HIDReportMap.Valid, Separate, Layouts,
        DecodersNow;
      var values, recognized, status := Decode(report);
      ghost var decoders, layouts := DecodersNow(), Layouts();
      pipeline.ProcessInputReport(EventsFor(report, values, status), recognized, EventOf(report, None, status));
      assert DecodersNow() == decoders && Layouts() == layouts;
    }

    /** `update_sampling_window_`. */
    method UpdateSamplingWindow()
      requires Valid()
      modifies pipeline, pipeline.buffer
      ensures Valid() && Layouts() == old(Layouts()) && MapsOk(Layouts())
      ensures View() == Act(Layouts(), old(View()), pipeline.clock, pipeline.interval, Idle)
    {
      hide MapsOk, HidReportMap.HIDReportMap.Valid, C.UpdateWindow;
      LayoutsOk();
      ghost var decoders := DecodersNow();
      pipeline.UpdateSamplingWindow();
      assert DecodersNow() == decoders;
    }

    /** Takes the oldest report and processes it. */
    method ProcessNext() returns (report: Q.Report)
      requires Valid() && pendingReports.queue != []
      modifies bootDecoder, pipeline, pipeline.buffer, pendingReports, reportMaps.Values
      ensures Valid() && Layouts() == old(Layouts()) && MapsOk(Layouts())
      ensures report == old(pendingReports.queue)[0] && pendingReports.queue == old(pendingReports.queue)[1..]
      ensures View() == Act(Layouts(), old(View()), pipeline.clock, pipeline.interval, Dequeued(report))
    {
      hide MapsOk, HidReportMap.HIDReportMap.Valid, Act, Q.BytesIn;
      ghost var decoders := DecodersNow();
      report := pendingReports.Dequeue();
      assert DecodersNow() == decoders;
      ProcessInputReport(report);
    }

    /** The input part of `loop`. How many reports fit into its time limit is up to the clock: at most
        `allowed` of them here. */
    method Loop(allowed: nat) returns (ghost taken: nat)
      requires Valid()
      modifies bootDecoder, pipeline, pipeline.buffer, pendingReports, reportMaps.Values
      ensures Valid() && Layouts() == old(Layouts()) && MapsOk(Layouts())
      ensures taken <= |old(pendingReports.queue)| && taken <= MAX_REPORTS_PER_LOOP
      ensures pendingReports.queue == old(pendingReports.queue)[taken..]
      ensures taken < allowed && taken < MAX_REPORTS_PER_LOOP ==> pendingReports.queue == []
      ensures var run := [Idle] + Taken(old(pendingReports.queue), taken) + [Idle];
        View() == ActAll(Layouts(), old(View()), pipeline.clock, pipeline.interval, run, |run|)
    {
      hide DecodeReport, C.Process, MapsOk, MapsValid, Separate, Layouts, DecodersNow, Act, ActAll, Valid;
      ghost var queue, start, maps, run: seq<Activity> := pendingReports.queue, View(), Layouts(), [];
      UpdateSamplingWindow();
      ActNone(maps, start, pipeline.clock, pipeline.interval, run);
      ActAppend(maps, start, pipeline.clock, pipeline.interval, run, Idle);
      run := run + [Idle];
      taken := 0;
      var processed := 0;
      while pendingReports.queue != [] && processed < MAX_REPORTS_PER_LOOP && processed < allowed
        invariant Valid() && Layouts() == maps
        invariant processed == taken <= |queue| && taken <= MAX_REPORTS_PER_LOOP
          && pendingReports.queue == queue[taken..]
        invariant run == [Idle] + Taken(queue, taken)
        invariant View() == ActAll(maps, start, pipeline.clock, pipeline.interval, run, |run|)
        decreases MAX_REPORTS_PER_LOOP - processed
      {
        var report := ProcessNext();
        ActAppend(maps, start, pipeline.clock, pipeline.interval, run, Dequeued(report));
        run := run + [Dequeued(report)];
        processed := processed + 1;
        taken := taken + 1;
      }
      UpdateSamplingWindow();
      ActAppend(maps, start, pipeline.clock, pipeline.interval, run, Idle);
    }
  }

  function Taken(queue: seq<Q.Report>, n: nat): (run: seq<Activity>)
    requires n <= |queue|
    ensures |run| == n
  {
    seq(n, i requires 0 <= i < n => Dequeued(queue[i]))
  }

  lemma ActNone(maps: Maps, s: System, clock: nat -> nat, interval: uint32, run: seq<Activity>)
    requires MapsOk(maps)
    ensures ActAll(maps, s, clock, interval, run, 0) == s
  {
  }

  lemma {:induction false} ActInPrefix(maps: Maps, s: System, clock: nat -> nat, interval: uint32, a: seq<Activity>,
                                       b: seq<Activity>, n: nat)
    requires MapsOk(maps) && n <= |a|
    ensures ActAll(maps, s, clock, interval, a + b, n) == ActAll(maps, s, clock, interval, a, n)
  {
    hide Act, MapsOk;
    if n > 0 {
      ActInPrefix(maps, s, clock, interval, a, b, n - 1);
    }
  }

  lemma ActAppend(maps: Maps, s: System, clock: nat -> nat, interval: uint32, run: seq<Activity>, activity: Activity)
    requires MapsOk(maps)
    ensures ActAll(maps, s, clock, interval, run + [activity], |run| + 1)
      == Act(maps, ActAll(maps, s, clock, interval, run, |run|), clock, interval, activity)
  {
    hide Act, MapsOk;
    ActInPrefix(maps, s, clock, interval, run, [activity], |run|);
  }
}
