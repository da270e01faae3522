/** Where the two halves of the component meet: the report maps and sources that setup leaves behind
    are what the decoders work with. */
module SetupInput {
  import opened Integers
  import HidCompiler
  import opened HidSchema
  import opened HidDecoder
  import B = BootDecoder
  import Q = ReportQueue
  import opened SetupPlan
  import opened Setup
  import opened SetupProofs
  import opened EndToEnd

  /** The report maps that setup has stored, by service. */
  function MapsOf(contexts: Contexts): Maps {
    map i | i in contexts && contexts[i].reportMap.Some? :: contexts[i].reportMap.value
  }

  /** In every state of every run, whatever the stack does, the stored maps are fit for decoding: what is
      proved about decoding for `MapsOk` holds for the maps of a connection. */
  lemma StoredMapsOk(config: Config, events: seq<Event>, n: nat)
    requires n <= |events|
    ensures MapsOk(MapsOf(Run(config, events, n).contexts))
  {
    hide Run, WellFormed, AllLinked, TypesKnown, MapsRead, Accepted;
    RunTraced(config, events, n);
    var maps := MapsOf(Run(config, events, n).contexts);
    forall i | i in maps
      ensures WellFormed(maps[i]) && AllLinked(maps[i])
    {
      AcceptedIsOk(maps[i]);
    }
  }

  lemma AcceptedIsOk(reportMap: Schema)
    requires Accepted(reportMap)
    ensures WellFormed(reportMap) && AllLinked(reportMap)
  {
    hide HidCompiler.Compile, WellFormed, AllLinked;
    var data :| HidCompiler.Compile(data) == Some(reportMap);
    HidCompiler.AcceptedIsWellFormed(data);
    WellFormedIsLinked(reportMap);
  }

  /** The source that `enqueue_input_report_` puts on a report of a characteristic. */
  function SourceFor(s: State, handle: uint16, isNotification: bool): Source {
    SourceOf(s.sources, handle).(handle := handle, isNotification := isNotification, hasTransport := true)
  }

  /** The report that a reference names is the one that its input payloads are routed to. */
  lemma NamedIsRouted(source: Source, reportMap: Schema, payload: seq<uint8>)
    requires NamesReport(source, reportMap) && source.hasReportId && !IsBoot(source)
    ensures var route := RouteOf(reportMap, source, Bytes(payload));
      if source.reportType != 1 then route == Reject(KindMismatch, false)
      else
        var report := reportMap.reports[ReportIndex(reportMap.reports, Input, source.reportId)];
        && report.kind == Input && report.reportId == source.reportId
        && route == (if |payload| < report.ByteSize() then Reject(Status.Short, true)
                     else Decode(if |payload| == report.ByteSize() then Exact else Status.Long,
                                 ReportIndex(reportMap.reports, Input, source.reportId), payload))
  {
  }

  /** READY: a report from a referenced characteristic of a HID service with a report map never fails for
      want of a schema. Behind an input reference it is recognised, and decoded unless it is too short. */
  lemma ReadyDecodes(config: Config, events: seq<Event>, n: nat, i: nat, handle: uint16, isNotification: bool,
                     payload: seq<uint8>, seqId: nat, d: Decoders)
    requires n <= |events| && ExpectedRun(config, events) && Run(config, events, n).phase == Ready
    requires var s := Run(config, events, n);
      && i < |s.services| && s.services[i].uuid == HID_SERVICE && i in MapsOf(s.contexts)
      && handle in s.sources && s.sources[handle].serviceInstance == i && s.sources[handle].hasReportId
    ensures var s := Run(config, events, n);
      var maps, source := MapsOf(s.contexts), SourceFor(s, handle, isNotification);
      && MapsOk(maps)
      && var decoded := DecodeReport(maps, d, Q.Report(source, payload, seqId));
         && decoded.status != SchemaMissing
         && (!IsBoot(source) && source.reportType == 1 ==>
               decoded.recognized && decoded.status in {Exact, Status.Long, Status.Short})
  {
    hide Run, ExpectedRun, PlanReads, PlanSubscriptions, Finished, MapsRead, MapsOk, ParseEvents, ParseRuntime, RouteOf,
      B.DecodeEvents, B.DecodeState;
    ReadyIsHonest(config, events, n);
    StoredMapsOk(config, events, n);
    var s := Run(config, events, n);
    var reportMap, source := MapsOf(s.contexts)[i], SourceFor(s, handle, isNotification);
    assert ReferencesDefined(s.sources, s.contexts, s.services, i);
    assert NamesReport(s.sources[handle], reportMap);
    if !IsBoot(source) {
      NamedIsRouted(source, reportMap, payload);
    }
  }
}
