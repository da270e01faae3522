/** From dequeued reports to emitted events: the decoders and the coalescing pipeline together
    (`process_input_report_` of ble_client_hid.cpp). What a peripheral sent to a scalar is what
    Home Assistant can reconstruct from the events under the scalar's key. */
module EndToEnd {
  import opened Integers
  import opened HidItems
  import opened HidSchema
  import opened HidCompiler
  import opened HidDecoder
  import B = BootDecoder
  import Q = ReportQueue
  import opened EventBuffer
  import C = Coalescing

  /** The parsed report maps by service instance. */
  type Maps = map<uint16, Schema>

  ghost predicate MapsOk(maps: Maps) {
    forall s | s in maps :: WellFormed(maps[s]) && AllLinked(maps[s])
  }

  /** The report id that goes into the key. */
  function SourceId(source: Source): uint8 {
    if source.hasReportId then source.reportId else 0
  }

  datatype Decoders = Decoders(boot: B.State, runtimes: map<uint16, Runtime>)

  /** After a reset: every report map without runtime state. */
  function Fresh(maps: Maps): Decoders {
    Decoders(B.RESET, map s | s in maps :: map[])
  }

  function RuntimeIn(d: Decoders, service: uint16): Runtime {
    if service in d.runtimes then d.runtimes[service] else map[]
  }

  predicate IsBoot(source: Source) {
    source.uuid == BOOT_KEYBOARD || source.uuid == BOOT_MOUSE
  }

  datatype Decoded = Decoded(values: seq<Value>, recognized: bool, status: Status, next: Decoders)

  function Verdict(route: Route): bool {
    match route case Reject(_, recognized) => recognized case Decode(_, _, _) => true
  }

  /** Boot characteristics go to the boot decoder, others to the report map of their service. */
  function DecodeReport(maps: Maps, d: Decoders, report: Q.Report): Decoded
    requires MapsOk(maps)
  {
    var source, payload, service := report.source, Bytes(report.payload), report.source.serviceInstance;
    if IsBoot(source) then
      var route := B.BootRouteOf(source, payload);
      Decoded(B.DecodeEvents(d.boot, source, payload), !route.Ignored?, route.status,
              d.(boot := B.DecodeState(d.boot, source, payload)))
    else if service in maps then
      var runtime, route := RuntimeIn(d, service), RouteOf(maps[service], source, payload);
      Decoded(ParseEvents(maps[service], runtime, source, payload), Verdict(route), route.status,
              d.(runtimes := d.runtimes[service := ParseRuntime(maps[service], runtime, source, payload)]))
    else Decoded([], false, SchemaMissing, d)
  }

  /** `make_hid_event_`. */
  function EventOf(report: Q.Report, value: Option<Value>, status: Status): HidEvent {
    HidEvent(report.source, report.payload, status, value, report.seqId, report.seqId)
  }

  function EventsFor(report: Q.Report, values: seq<Value>, status: Status): (events: seq<HidEvent>)
    ensures |events| == |values|
  {
    seq(|values|, i requires 0 <= i < |values| => EventOf(report, Some(values[i]), status))
  }

  function InputFor(report: Q.Report, decoded: Decoded): C.Input {
    C.Report(EventsFor(report, decoded.values, decoded.status), decoded.recognized,
             EventOf(report, None, decoded.status))
  }

  /** Without coalescing, a report gives one event for each decoded value, in their order, or else its
      envelope; each carries the report's source, payload, status and sequence number. */
  lemma EventsCarry(report: Q.Report, decoded: Decoded)
    ensures var plain := C.PlainOf(InputFor(report, decoded));
      && (forall e | e in plain ::
            && e.source == report.source && e.payload == report.payload && e.status == decoded.status
            && e.seqFrom == report.seqId && e.seqTo == report.seqId)
      && (if decoded.values != [] then
            |plain| == |decoded.values| && forall i | 0 <= i < |plain| :: plain[i].item == Some(decoded.values[i])
          else |plain| == (if decoded.recognized then 0 else 1) && forall e | e in plain :: e.item == None)
  {
  }

  /** What the main loop does: an iteration without a report, or the processing of one. */
  datatype Activity = Idle | Dequeued(report: Q.Report)

  function DecodersAfter(maps: Maps, run: seq<Activity>, n: nat): Decoders
    requires MapsOk(maps) && n <= |run|
  {
    if n == 0 then Fresh(maps)
    else
      match run[n - 1]
      case Idle => DecodersAfter(maps, run, n - 1)
      case Dequeued(report) => DecodeReport(maps, DecodersAfter(maps, run, n - 1), report).next
  }

  function InputAt(maps: Maps, run: seq<Activity>, n: nat): C.Input
    requires MapsOk(maps) && n < |run|
  {
    match run[n]
    case Idle => C.Tick
    case Dequeued(report) => InputFor(report, DecodeReport(maps, DecodersAfter(maps, run, n), report))
  }

  function Inputs(maps: Maps, run: seq<Activity>): (inputs: seq<C.Input>)
    requires MapsOk(maps)
    ensures |inputs| == |run|
  {
    seq(|run|, i requires 0 <= i < |run| => InputAt(maps, run, i))
  }

  /** Decoders and pipeline together, one activity at a time. */
  datatype System = System(decoders: Decoders, pipe: C.Pipe)

  function Act(maps: Maps, s: System, clock: nat -> nat, interval: uint32, activity: Activity): System
    requires MapsOk(maps)
  {
    match activity
    case Idle => s.(pipe := C.Process(s.pipe, clock, interval, C.Tick))
    case Dequeued(report) =>
      var decoded := DecodeReport(maps, s.decoders, report);
      System(decoded.next, C.Process(s.pipe, clock, interval, InputFor(report, decoded)))
  }

  function ActAll(maps: Maps, s: System, clock: nat -> nat, interval: uint32, run: seq<Activity>, n: nat): System
    requires MapsOk(maps) && n <= |run|
  {
    if n == 0 then s else Act(maps, ActAll(maps, s, clock, interval, run, n - 1), clock, interval, run[n - 1])
  }

  lemma {:induction false} ActAllIsRun(maps: Maps, clock: nat -> nat, interval: uint32, run: seq<Activity>, n: nat)
    requires MapsOk(maps) && n <= |run|
    ensures ActAll(maps, System(Fresh(maps), C.IDLE), clock, interval, run, n)
      == System(DecodersAfter(maps, run, n), C.Run(clock, interval, Inputs(maps, run), n))
  {
    hide DecodeReport, InputFor, C.Process, Fresh, MapsOk;
    if n > 0 {
      ActAllIsRun(maps, clock, interval, run, n - 1);
    }
  }

  lemma IdleAddsNothing(plain: seq<HidEvent>, more: seq<HidEvent>, key: Key)
    requires more == C.PlainOf(C.Tick)
    ensures more == [] && plain + more == plain
  {
  }

  // ---------- raw envelopes ----------

  /** The payload does not fill the report that its report map defines for it. */
  predicate TooShort(maps: Maps, report: Q.Report) {
    var source := report.source;
    && !IsBoot(source) && source.serviceInstance in maps && !(source.hasReportType && source.reportType != 1)
    && var reports := maps[source.serviceInstance].reports;
       var r := ReportIndex(reports, Input, SourceId(source));
       r < |reports| && |report.payload| < reports[r].ByteSize()
  }

  /** The documentation promises a raw envelope for all traffic that cannot be decoded. It comes for
      every such report except those that are too short for their descriptor: they stay silent. */
  lemma EnvelopeUnlessTooShort(maps: Maps, d: Decoders, report: Q.Report)
    requires MapsOk(maps)
    requires var status := DecodeReport(maps, d, report).status; status != Exact && status != Status.Long
    ensures var decoded := DecodeReport(maps, d, report);
      && decoded.values == []
      && (C.PlainOf(InputFor(report, decoded)) == [EventOf(report, None, decoded.status)] <==> !TooShort(maps, report))
      && (TooShort(maps, report) ==> C.PlainOf(InputFor(report, decoded)) == [])
  {
    hide ReportEvents, RuntimeAfter, B.MouseEvents, B.KeyboardEvents, WellFormed, AllLinked;
    var decoded := DecodeReport(maps, d, report);
    assert EventsFor(report, [], decoded.status) == [];
  }

  const ONE_BUTTON := Field(0, Input, 0, NO_PARENT, 0, 1, 8, 2, Range(0, 1), Range(0, 0), 0, 0, [], [],
                            NO_USAGE, NO_USAGE, false, Indices([], 0, 0, false), Indices([], 0, 0, false))

  const ONE_BYTE_MAP := Schema([Report.Report(Input, 0, 8, [0])], [ONE_BUTTON], [], [], false)

  /** Logical Maximum 1, Report Size 1, Report Count 8, Input (Data, Variable, Absolute). */
  const ONE_BYTE_DESCRIPTOR: seq<uint8> := [0x25, 1, 0x75, 1, 0x95, 8, 0x81, 2]

  const ONE_BYTE_ITEMS := [Item.Short(0x25, [1]), Item.Short(0x75, [1]), Item.Short(0x95, [8]), Item.Short(0x81, [2])]

  lemma OneByteItems()
    ensures Tokenise(ONE_BYTE_DESCRIPTOR) == Some(ONE_BYTE_ITEMS)
  {
    hide Tokenise;
    var items := ONE_BYTE_ITEMS;
    assert items[1..] == [items[1], items[2], items[3]];
    assert items[1..][1..] == [items[2], items[3]];
    assert items[1..][1..][1..] == [items[3]];
    assert items[1..][1..][1..][1..] == [];
    assert EncodeAll([items[3]]) == [0x81, 2];
    assert EncodeAll([items[2], items[3]]) == [0x95, 8] + [0x81, 2];
    assert EncodeAll([items[1], items[2], items[3]]) == [0x75, 1] + ([0x95, 8] + [0x81, 2]);
    assert EncodeAll(items) == ONE_BYTE_DESCRIPTOR;
    TokeniseEncoded(items);
  }

  lemma OneByteField(m: Machine)
    requires m.global == INITIAL_GLOBAL.(logical := Range(0, 1), reportSize := 1, reportCount := 8)
    requires m.local == NO_LOCALS && m.schema == EMPTY_SCHEMA && m.collectionStack == []
    ensures ShortItem(m, 0x81, 1, 2) == Some(m.(schema := ONE_BYTE_MAP))
  {
    assert NO_LOCALS.usageSets[1..] == [];
    assert NewField(m, Input, 2, 0) == ONE_BUTTON;
    var before, after := Report.Report(Input, 0, 0, []), Report.Report(Input, 0, 8, [0]);
    assert EMPTY_SCHEMA.reports + [before] == [before] && [before][0 := after] == [after];
    assert EMPTY_SCHEMA.fields + [ONE_BUTTON] == [ONE_BUTTON];
    assert before.fieldIds + [0] == after.fieldIds;
    assert AddField(m, Input, 2) == Some(m.(schema := ONE_BYTE_MAP));
  }

  /** The report map of one byte is what a descriptor of eight bytes compiles to. */
  lemma OneByteMapCompiles()
    ensures Compile(ONE_BYTE_DESCRIPTOR) == Some(ONE_BYTE_MAP)
  {
    hide Tokenise, Step, AddField;
    var items, g := ONE_BYTE_ITEMS, INITIAL_GLOBAL;
    OneByteItems();
    var m1 := INITIAL.(global := g.(logical := Range(0, 1)), offset := 2);
    var m2 := m1.(global := m1.global.(reportSize := 1), offset := 4);
    var m3 := m2.(global := m2.global.(reportCount := 8), offset := 6);
    ByteStep(INITIAL, 0x25, 1);
    ByteStep(m1, 0x75, 1);
    ByteStep(m2, 0x95, 8);
    ByteStep(m3, 0x81, 2);
    OneByteField(m3);
    assert Run(INITIAL, items, 1) == Some(m1);
    assert Run(INITIAL, items, 2) == Some(m2);
    assert Run(INITIAL, items, 3) == Some(m3);
    assert Run(INITIAL, items, 4) == Some(m3.(schema := ONE_BYTE_MAP, offset := 8));
  }

  /** An input report with id 0 of the first service, as the queue completes its source. */
  const ONE_BYTE_SOURCE := NO_SOURCE.(uuid := HID_REPORT, handle := 1, hasTransport := true,
                                      hasReportId := true, reportType := 1, hasReportType := true)

  const EMPTY_REPORT := Q.Report(ONE_BYTE_SOURCE, [], 1)

  lemma EmptyReportIsQueued()
    ensures Q.Taken([Q.Notify(ONE_BYTE_SOURCE, Null(0), true), Q.Take], 2) == [EMPTY_REPORT]
  {
    var ops := [Q.Notify(ONE_BYTE_SOURCE, Null(0), true), Q.Take];
    assert Q.Run(ops, 0) == Q.INITIAL;
    assert Q.Run(ops, 1).queue == [EMPTY_REPORT];
    assert Q.Taken(ops, 1) == [];
  }

  lemma OneByteMapIsOk()
    ensures MapsOk(map[0 := ONE_BYTE_MAP])
  {
    hide WellFormed, AllLinked, Compile;
    OneByteMapCompiles();
    AcceptedIsWellFormed(ONE_BYTE_DESCRIPTOR);
    WellFormedIsLinked(ONE_BYTE_MAP);
  }

  lemma EmptyReportIsShort()
    ensures RouteOf(ONE_BYTE_MAP, ONE_BYTE_SOURCE, Bytes([])) == Reject(Status.Short, true)
  {
    assert ReportIndex(ONE_BYTE_MAP.reports, Input, 0) == 0;
    assert ONE_BYTE_MAP.reports[0].ByteSize() == 1;
  }

  /** An empty notification for a report of one byte, which the queue hands on: nothing is emitted at all. */
  lemma ShortReportIsSilent()
    ensures Compile(ONE_BYTE_DESCRIPTOR) == Some(ONE_BYTE_MAP) && MapsOk(map[0 := ONE_BYTE_MAP])
    ensures Q.Taken([Q.Notify(ONE_BYTE_SOURCE, Null(0), true), Q.Take], 2) == [EMPTY_REPORT]
    ensures var maps := map[0 := ONE_BYTE_MAP]; var decoded := DecodeReport(maps, Fresh(maps), EMPTY_REPORT);
      decoded.status == Status.Short && C.PlainOf(InputFor(EMPTY_REPORT, decoded)) == []
  {
    hide Compile, MapsOk, RouteOf, ReportEvents, RuntimeAfter, Q.Taken, Fresh, B.DecodeEvents, B.DecodeState;
    EmptyReportIsQueued();
    OneByteMapCompiles();
    OneByteMapIsOk();
    EmptyReportIsShort();
    assert EventsFor(EMPTY_REPORT, [], Status.Short) == [];
  }
}
