/** The plain stream of the whole component at one key: it is the stream of one report map alone,
    whatever other services, reports and boot characteristics do. */
module KeyStreams {
  import opened Integers
  import opened HidSchema
  import opened HidDecoder
  import opened HidReplay
  import B = BootDecoder
  import Q = ReportQueue
  import opened EventBuffer
  import C = Coalescing
  import opened EndToEnd
  import opened SystemRate

  /** What the first `n` events carry under a key. */
  function ItemsAt(events: seq<HidEvent>, key: Key, n: nat): seq<Value>
    requires n <= |events|
  {
    if n == 0 then []
    else
      var e := events[n - 1];
      ItemsAt(events, key, n - 1) + (if e.item.Some? && KeyOf(e) == key then [e.item.value] else [])
  }

  lemma {:induction false} ItemsInPrefix(a: seq<HidEvent>, b: seq<HidEvent>, key: Key, n: nat)
    requires n <= |a|
    ensures ItemsAt(a + b, key, n) == ItemsAt(a, key, n)
  {
    if n > 0 {
      ItemsInPrefix(a, b, key, n - 1);
    }
  }

  lemma {:induction false} ItemsConcat(a: seq<HidEvent>, b: seq<HidEvent>, key: Key, n: nat)
    requires n <= |b|
    ensures ItemsAt(a + b, key, |a| + n) == ItemsAt(a, key, |a|) + ItemsAt(b, key, n)
  {
    hide KeyOf;
    if n == 0 {
      ItemsInPrefix(a, b, key, |a|);
      assert ItemsAt(a, key, |a|) + [] == ItemsAt(a, key, |a|);
    } else {
      ItemsConcat(a, b, key, n - 1);
      assert (a + b)[|a| + n - 1] == b[n - 1];
    }
  }

  /** The values under a field id. */
  function AtField(values: seq<Value>, fieldId: nat, n: nat): seq<Value>
    requires n <= |values|
  {
    if n == 0 then []
    else AtField(values, fieldId, n - 1) + (if values[n - 1].fieldId == fieldId then [values[n - 1]] else [])
  }

  /** The key belongs to the service and report id of the source. */
  predicate Addresses(key: Key, source: Source) {
    key.serviceInstance == source.serviceInstance && key.reportId == SourceId(source) && key.reportKind == INPUT_KIND
  }

  lemma EventKey(report: Q.Report, value: Value, status: Status, key: Key)
    ensures var e := EventOf(report, Some(value), status);
      e.item == Some(value) && (KeyOf(e) == key <==> Addresses(key, report.source) && value.fieldId == key.fieldId)
  {
  }

  lemma ItemsStep(events: seq<HidEvent>, key: Key, n: nat)
    requires n < |events|
    ensures ItemsAt(events, key, n + 1) == ItemsAt(events, key, n)
      + (if events[n].item.Some? && KeyOf(events[n]) == key then [events[n].item.value] else [])
  {
  }

  lemma AtFieldStep(values: seq<Value>, fieldId: nat, n: nat)
    requires n < |values|
    ensures AtField(values, fieldId, n + 1)
      == AtField(values, fieldId, n) + (if values[n].fieldId == fieldId then [values[n]] else [])
  {
  }

  lemma NothingYet(events: seq<HidEvent>, values: seq<Value>, key: Key)
    ensures ItemsAt(events, key, 0) == [] && AtField(values, key.fieldId, 0) == []
  {
  }

  lemma {:induction false} ItemsOfReport(report: Q.Report, values: seq<Value>, status: Status, key: Key, n: nat)
    requires n <= |values|
    ensures ItemsAt(EventsFor(report, values, status), key, n)
      == (if Addresses(key, report.source) then AtField(values, key.fieldId, n) else [])
  {
    hide KeyOf, EventOf, Addresses, ItemsAt, AtField;
    var events := EventsFor(report, values, status);
    if n == 0 {
      NothingYet(events, values, key);
    } else {
      var e, before := events[n - 1], ItemsAt(events, key, n - 1);
      ItemsOfReport(report, values, status, key, n - 1);
      assert e == EventOf(report, Some(values[n - 1]), status);
      EventKey(report, values[n - 1], status, key);
      ItemsStep(events, key, n - 1);
      AtFieldStep(values, key.fieldId, n - 1);
      assert before + [] == before;
    }
  }

  lemma {:induction false} AtFieldIsSelect(values: seq<Value>, reportId: uint8, fieldId: nat, n: nat)
    requires n <= |values| && forall i | 0 <= i < |values| :: values[i].reportId == reportId
    ensures AtField(values, fieldId, n) == Select(values[..n], reportId, fieldId)
  {
    if n > 0 {
      AtFieldIsSelect(values, reportId, fieldId, n - 1);
      assert values[..n][..n - 1] == values[..n - 1];
    }
  }

  lemma {:induction false} AtFieldElsewhere(values: seq<Value>, fieldId: nat, n: nat)
    requires n <= |values| && forall i | 0 <= i < |values| :: values[i].fieldId != fieldId
    ensures AtField(values, fieldId, n) == []
  {
    if n > 0 {
      AtFieldElsewhere(values, fieldId, n - 1);
    }
  }

  /** The reports that reach the report map of a service, among the first `n` activities. */
  function Deliveries(service: uint16, run: seq<Activity>, n: nat): seq<Delivery>
    requires n <= |run|
  {
    if n == 0 then []
    else
      match run[n - 1]
      case Idle => Deliveries(service, run, n - 1)
      case Dequeued(report) =>
        Deliveries(service, run, n - 1)
          + (if report.source.serviceInstance == service && !IsBoot(report.source)
             then [HidReplay.Delivery(report.source, Bytes(report.payload))] else [])
  }

  lemma {:induction false} RunInPrefix(schema: Schema, a: seq<Delivery>, b: seq<Delivery>, n: nat)
    requires AllLinked(schema) && n <= |a|
    ensures RunRuntime(schema, a + b, n) == RunRuntime(schema, a, n)
    ensures RunEvents(schema, a + b, n) == RunEvents(schema, a, n)
  {
    hide ParseRuntime, ParseEvents;
    if n > 0 {
      RunInPrefix(schema, a, b, n - 1);
    }
  }

  /** One more delivery. */
  lemma RunAppend(schema: Schema, a: seq<Delivery>, d: Delivery)
    requires AllLinked(schema)
    ensures RunRuntime(schema, a + [d], |a| + 1)
      == ParseRuntime(schema, RunRuntime(schema, a, |a|), d.source, d.payload)
    ensures RunEvents(schema, a + [d], |a| + 1)
      == RunEvents(schema, a, |a|) + ParseEvents(schema, RunRuntime(schema, a, |a|), d.source, d.payload)
  {
    hide ParseRuntime, ParseEvents;
    RunInPrefix(schema, a, [d], |a|);
  }

  /** The report map of a service sees exactly its deliveries, whatever happens elsewhere. */
  lemma {:induction false} RuntimeFollows(maps: Maps, run: seq<Activity>, n: nat, service: uint16)
    requires MapsOk(maps) && n <= |run| && service in maps
    ensures var ds := Deliveries(service, run, n);
      RuntimeIn(DecodersAfter(maps, run, n), service) == RunRuntime(maps[service], ds, |ds|)
  {
    hide ParseRuntime, ParseEvents, RouteOf, B.DecodeEvents, B.DecodeState, B.BootRouteOf, WellFormed;
    if n > 0 {
      RuntimeFollows(maps, run, n - 1, service);
      var ds := Deliveries(service, run, n - 1);
      match run[n - 1] {
        case Idle =>
        case Dequeued(report) =>
          RunAppend(maps[service], ds, HidReplay.Delivery(report.source, Bytes(report.payload)));
          assert ds + [] == ds;
      }
    }
  }

  /** What one report contributes to the plain stream at a key below the boot field ids. */
  lemma ReportAtKey(maps: Maps, d: Decoders, report: Q.Report, key: Key)
    requires MapsOk(maps) && key.serviceInstance in maps && key.reportKind == INPUT_KIND && key.fieldId < 0xF000
    ensures var plain := C.PlainOf(InputFor(report, DecodeReport(maps, d, report)));
      ItemsAt(plain, key, |plain|)
        == (if report.source.serviceInstance == key.serviceInstance && !IsBoot(report.source)
            then Select(ParseEvents(maps[key.serviceInstance], RuntimeIn(d, key.serviceInstance), report.source,
                                    Bytes(report.payload)),
                        key.reportId, key.fieldId)
            else [])
  {
    hide B.DecodeEvents, B.DecodeState, B.BootRouteOf, ParseEvents, ParseRuntime, WellFormed, AllLinked, RouteOf,
      ItemsAt, Select;
    var decoded, source := DecodeReport(maps, d, report), report.source;
    var values := decoded.values;
    PlainItems(report, decoded, key);
    ItemsOfReport(report, values, decoded.status, key, |values|);
    if IsBoot(source) {
      BootApart(d.boot, source, Bytes(report.payload));
      AtFieldElsewhere(values, key.fieldId, |values|);
    } else if source.serviceInstance == key.serviceInstance {
      var schema, runtime := maps[key.serviceInstance], RuntimeIn(d, key.serviceInstance);
      ParsedCarryId(schema, runtime, source, Bytes(report.payload));
      if key.reportId == SourceId(source) {
        AtFieldIsSelect(values, key.reportId, key.fieldId, |values|);
        assert values[..|values|] == values;
      } else {
        SelectNothing(values, key.reportId, key.fieldId);
      }
    }
  }

  /** The raw envelope of an undecodable report carries no value. */
  lemma PlainItems(report: Q.Report, decoded: Decoded, key: Key)
    ensures var plain, events := C.PlainOf(InputFor(report, decoded)),
      EventsFor(report, decoded.values, decoded.status);
      ItemsAt(plain, key, |plain|) == ItemsAt(events, key, |events|)
  {
  }

  /** Parsed values carry the report id of their source. */
  lemma ParsedCarryId(schema: Schema, runtime: Runtime, source: Source, payload: Buffer)
    requires WellFormed(schema) && AllLinked(schema)
    ensures forall i | 0 <= i < |ParseEvents(schema, runtime, source, payload)| ::
      ParseEvents(schema, runtime, source, payload)[i].reportId == SourceId(source)
  {
    hide WellFormed, ReportEvents;
    var route := RouteOf(schema, source, payload);
    if route.Decode? {
      EventsCarryReportId(schema, route.report, runtime, route.bytes, |schema.reports[route.report].fieldIds|);
    }
  }

  /** At every key that a report map can use, the plain stream of the whole system is the stream of
      that report map alone. */
  lemma {:induction false} StreamFollows(maps: Maps, run: seq<Activity>, n: nat, key: Key)
    requires MapsOk(maps) && n <= |run|
    requires key.serviceInstance in maps && key.reportKind == INPUT_KIND && key.fieldId < 0xF000
    ensures var plain, ds := C.Plain(Inputs(maps, run), n), Deliveries(key.serviceInstance, run, n);
      ItemsAt(plain, key, |plain|)
        == Select(RunEvents(maps[key.serviceInstance], ds, |ds|), key.reportId, key.fieldId)
  {
    hide DecodeReport, ParseEvents, ParseRuntime, RunEvents, RunRuntime, ItemsAt, Select, InputFor, C.PlainOf,
      WellFormed, AllLinked;
    if n == 0 {
      NothingFollows(maps[key.serviceInstance], key);
    } else {
      var schema := maps[key.serviceInstance];
      var plain, ds := C.Plain(Inputs(maps, run), n - 1), Deliveries(key.serviceInstance, run, n - 1);
      var more := C.PlainOf(InputAt(maps, run, n - 1));
      StreamFollows(maps, run, n - 1, key);
      ItemsConcat(plain, more, key, |more|);
      match run[n - 1] {
        case Idle => IdleAddsNothing(plain, more, key);
        case Dequeued(report) =>
          var d := DecodersAfter(maps, run, n - 1);
          ReportAtKey(maps, d, report, key);
          RuntimeFollows(maps, run, n - 1, key.serviceInstance);
          RunAppend(schema, ds, HidReplay.Delivery(report.source, Bytes(report.payload)));
          var runtime := RuntimeIn(d, key.serviceInstance);
          SelectConcat(RunEvents(schema, ds, |ds|), ParseEvents(schema, runtime, report.source, Bytes(report.payload)),
                       key.reportId, key.fieldId);
          AppendNothing(ds, ItemsAt(plain, key, |plain|));
      }
    }
  }

  lemma AppendNothing(ds: seq<Delivery>, values: seq<Value>)
    ensures ds + [] == ds && values + [] == values
  {
  }

  lemma NothingFollows(schema: Schema, key: Key)
    requires AllLinked(schema)
    ensures ItemsAt([], key, 0) == Select(RunEvents(schema, [], 0), key.reportId, key.fieldId)
  {
  }
}
