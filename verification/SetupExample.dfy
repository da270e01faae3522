/** A whole connection, event by event: a keypad with one report of eight buttons is discovered, read,
    subscribed to and READY, and then its first button is reported. */
module SetupExample {
  import opened Integers
  import HidCompiler
  import opened HidSchema
  import opened HidDecoder
  import Q = ReportQueue
  import opened Bits
  import S = Subscription
  import opened SetupPlan
  import opened Setup
  import opened SetupProofs
  import opened SetupFaults
  import opened SetupInput
  import opened EndToEnd

  const MAP_CHARACTERISTIC := Characteristic(HID_REPORT_MAP, 1, true, false, false, [])

  const REPORT_CHARACTERISTIC := Characteristic(HID_REPORT, 2, false, true, false,
                                                [Descriptor(REPORT_REFERENCE, 3), Descriptor(CCCD, 4)])

  const KEYPAD: Services := [Service(HID_SERVICE, [MAP_CHARACTERISTIC, REPORT_CHARACTERISTIC])]

  const READ_MAP := ReadOp(1, 1, 0, ReportMap, true)

  const READ_REFERENCE := ReadOp(3, 2, 0, ReportReference, false)

  const SUBSCRIBE := Subscription(2, 4, true, true)

  /** A request that the stack takes. */
  const TAKEN := Answer(true, [], true, false)

  const CONNECTION: seq<Event> := [
    Connect(0), DiscoveryComplete(1, true), Tick(2, 2, Answer(true, KEYPAD, true, false)), Tick(3, 3, TAKEN),
    ReadDone(4, 1, true, Bytes(ONE_BYTE_DESCRIPTOR)), Tick(5, 5, TAKEN), ReadDone(6, 3, true, Bytes([0, 1])),
    Tick(7, 7, TAKEN), Tick(8, 8, TAKEN), Tick(9, 9, TAKEN), RegistrationDone(10, 2, true),
    CccdWriteDone(11, 4, true, true), Tick(12, 12, TAKEN)]

  function ConfigOf(policy: Policy): Config { Config(false, policy) }

  lemma KeypadReads(policy: Policy)
    ensures PlanReads(ConfigOf(policy), KEYPAD, 1) == ReadPlan([READ_MAP, READ_REFERENCE], {1, 3}, false)
  {
    var config, service := ConfigOf(policy), KEYPAD[0];
    var first := ReadPlan([READ_MAP], {1}, false);
    assert PlanReads(config, KEYPAD, 0) == NO_READS;
    assert PlanService(config, service, 0, NO_READS, 0) == NO_READS;
    assert AddRead(NO_READS, READ_MAP) == first;
    assert PlanDescriptors(config, 0, MAP_CHARACTERISTIC, first, 0) == first;
    assert PlanService(config, service, 0, NO_READS, 1) == first;
    ReferenceReads(config, first);
    assert PlanService(config, service, 0, NO_READS, 2)
      == PlanCharacteristic(config, HID_SERVICE, 0, REPORT_CHARACTERISTIC, first);
  }

  lemma ReferenceReads(config: Config, first: ReadPlan)
    requires !config.forensic && first == ReadPlan([READ_MAP], {1}, false)
    ensures PlanCharacteristic(config, HID_SERVICE, 0, REPORT_CHARACTERISTIC, first)
      == ReadPlan([READ_MAP, READ_REFERENCE], {1, 3}, false)
  {
    var c := REPORT_CHARACTERISTIC;
    assert PlanDescriptors(config, 0, c, first, 0) == first;
    assert PlanDescriptors(config, 0, c, first, 1) == AddRead(first, READ_REFERENCE);
    assert PlanDescriptors(config, 0, c, first, 2) == PlanDescriptors(config, 0, c, first, 1);
  }

  lemma KeypadSubscriptions(policy: Policy)
    ensures PlanSubscriptions(ConfigOf(policy), KEYPAD, 1) == SubscriptionPlan([SUBSCRIBE], false)
  {
    var config, service := ConfigOf(policy), KEYPAD[0];
    assert PlanSubscriptions(config, KEYPAD, 0) == NO_SUBSCRIPTIONS;
    assert CccdHandle(REPORT_CHARACTERISTIC.descriptors, 1) == 4;
    var one := NO_SUBSCRIPTIONS.(list := [SUBSCRIBE]);
    assert SubscribeService(config, service, one, 2) == one;
    assert SubscribeService(config, service, NO_SUBSCRIPTIONS, 1) == one;
    assert SubscribeService(config, service, NO_SUBSCRIPTIONS, 0) == one;
  }

  // ---------- the states of the connection ----------

  const PLANNED := Setup.Fresh(Reading, 2).(
    services := KEYPAD, contexts := map[0 := Context(0, None)], readQueue := [READ_MAP, READ_REFERENCE],
    history := NO_HISTORY.(plannedReads := [READ_MAP, READ_REFERENCE]))

  const READING_MAP := PLANNED.(
    readQueue := [READ_REFERENCE], activeRead := Some(READ_MAP),
    history := PLANNED.history.(triedReads := [READ_MAP]))

  const HAS_MAP := READING_MAP.(
    activeRead := None, contexts := map[0 := Context(0, Some(ONE_BYTE_MAP))],
    history := READING_MAP.history.(doneReads := [DoneRead(READ_MAP, ONE_BYTE_DESCRIPTOR)]))

  const READING_REFERENCE := HAS_MAP.(
    readQueue := [], activeRead := Some(READ_REFERENCE),
    history := HAS_MAP.history.(triedReads := [READ_MAP, READ_REFERENCE]))

  const INPUT_SOURCE := NO_SOURCE.(handle := 2, uuid := HID_REPORT, hasReportId := true, reportType := 1,
                                   hasReportType := true)

  const HAS_REFERENCE := READING_REFERENCE.(
    activeRead := None, sources := map[2 := INPUT_SOURCE],
    history := READING_REFERENCE.history.(
      doneReads := [DoneRead(READ_MAP, ONE_BYTE_DESCRIPTOR), DoneRead(READ_REFERENCE, [0, 1])]))

  const READ := Transition(HAS_REFERENCE, BuildingProfile, 7)

  const BUILT := READ.(reportHandles := {2})

  const REGISTERING := Transition(BUILT, Registering, 8).(
    subscriptionQueue := [SUBSCRIBE], history := BUILT.history.(plannedSubscriptions := [SUBSCRIBE]))

  const SUBSCRIBING := REGISTERING.(
    subscriptionQueue := [], activeSubscription := Some(SUBSCRIBE), attempt := S.Begun(2, 4),
    history := REGISTERING.history.(triedSubscriptions := [SUBSCRIBE]))

  const WAITING := Transition(SUBSCRIBING, WaitingForCccd, 10).(
    attempt := SUBSCRIBING.attempt.(stage := S.WaitingForCccd, fallbackAtMs := 260))

  const SUBSCRIBED := Transition(WAITING, Registering, 11).(
    activeSubscription := None, attempt := S.NO_ATTEMPT,
    history := WAITING.history.(doneSubscriptions := [SUBSCRIBE]))

  const DONE := Transition(SUBSCRIBED, Ready, 12)

  lemma NotYet(s: State, now: nat)
    requires s.phaseStarted <= now < s.phaseStarted + 15000
    ensures CheckTimeout(s, now) == s
  {
    ElapsedIsRealTime(s.phaseStarted, now, PHASE_TIMEOUT_MS);
  }

  lemma InventoryStep(policy: Policy)
    ensures Step(ConfigOf(policy), Transition(Setup.Fresh(WaitingForDiscovery, 0), Inventory, 1), CONNECTION[2])
      == PLANNED
  {
    hide PlanReads, CheckTimeout;
    KeypadReads(policy);
    var contexts: Contexts := map[0 := Context(0, None)];
    assert HidContexts(KEYPAD) == contexts;
    assert contexts != map[] by { assert 0 in contexts; }
    NotYet(PLANNED, 2);
  }

  lemma MapRequested(config: Config)
    ensures Step(config, PLANNED, CONNECTION[3]) == READING_MAP
  {
    hide CheckTimeout;
    assert PLANNED.readQueue[1..] == [READ_REFERENCE];
    assert PLANNED.history.triedReads + [READ_MAP] == [READ_MAP];
    NotYet(READING_MAP, 3);
  }

  lemma MapArrives(config: Config)
    ensures Step(config, READING_MAP, CONNECTION[4]) == HAS_MAP
  {
    hide HidCompiler.Compile;
    OneByteMapCompiles();
    assert READING_MAP.history.doneReads + [DoneRead(READ_MAP, ONE_BYTE_DESCRIPTOR)] == HAS_MAP.history.doneReads;
    assert HAS_MAP.contexts == READING_MAP.contexts[0 := Context(0, Some(ONE_BYTE_MAP))];
  }

  lemma ReferenceRequested(config: Config)
    ensures Step(config, HAS_MAP, CONNECTION[5]) == READING_REFERENCE
  {
    hide CheckTimeout;
    assert HAS_MAP.readQueue[1..] == [];
    assert HAS_MAP.history.triedReads + [READ_REFERENCE] == [READ_MAP, READ_REFERENCE];
    NotYet(READING_REFERENCE, 5);
  }

  lemma ReferenceArrives(config: Config)
    ensures Step(config, READING_REFERENCE, CONNECTION[6]) == HAS_REFERENCE
  {
    assert READING_REFERENCE.history.doneReads + [DoneRead(READ_REFERENCE, [0, 1])] == HAS_REFERENCE.history.doneReads;
    assert READING_REFERENCE.sources[2 := INPUT_SOURCE] == HAS_REFERENCE.sources;
  }

  lemma ReadsEnd(config: Config)
    ensures Step(config, HAS_REFERENCE, CONNECTION[7]) == READ
  {
    hide CheckTimeout;
    NotYet(READ, 7);
  }

  lemma ProfileIsBuilt()
    ensures BuildProfile(READ) == BUILT
  {
    var p := Profile(READ.sources, READ.contexts, {}, false);
    var service := KEYPAD[0];
    assert BuildCharacteristics(p, service, 0, 0) == p;
    assert BuildCharacteristics(p, service, 0, 1) == p;
    assert p.sources[2 := INPUT_SOURCE] == p.sources && p.handles + {2} == {2};
    assert BuildCharacteristics(p, service, 0, 2) == p.(handles := {2});
    assert ReportIndex(ONE_BYTE_MAP.reports, Input, 0) == 0;
    assert BuildProfiles(p, KEYPAD, 0) == p;
    assert BuildProfiles(p, KEYPAD, 1) == p.(handles := {2});
  }

  lemma BuildStep(policy: Policy)
    ensures Step(ConfigOf(policy), READ, CONNECTION[8]) == REGISTERING
  {
    hide CheckTimeout, BuildProfile, PlanSubscriptions;
    ProfileIsBuilt();
    KeypadSubscriptions(policy);
    assert ProtocolHandles(BUILT.contexts, 0) == [] == ProtocolHandles(BUILT.contexts, 1);
    NotYet(REGISTERING, 8);
  }

  lemma SubscriptionRequested(config: Config)
    ensures Step(config, REGISTERING, CONNECTION[9]) == SUBSCRIBING
  {
    hide CheckTimeout;
    assert REGISTERING.subscriptionQueue[1..] == [];
    assert REGISTERING.history.triedSubscriptions + [SUBSCRIBE] == [SUBSCRIBE];
    NotYet(SUBSCRIBING, 9);
  }

  lemma SubscriptionConfirmed(config: Config)
    ensures Step(config, SUBSCRIBING, CONNECTION[10]) == WAITING
    ensures Step(config, WAITING, CONNECTION[11]) == SUBSCRIBED
  {
    assert WAITING.history.doneSubscriptions + [SUBSCRIBE] == [SUBSCRIBE];
  }

  lemma SetupEnds(config: Config)
    ensures Step(config, SUBSCRIBED, CONNECTION[12]) == DONE
  {
    hide CheckTimeout;
    NotYet(DONE, 12);
  }

  /** From Connect to READY: the map is stored, the report is subscribed to, and nothing was a fault. */
  lemma ConnectionIsReady(policy: Policy)
    ensures ExpectedRun(ConfigOf(policy), CONNECTION) && |CONNECTION| == 13
    ensures var s := Run(ConfigOf(policy), CONNECTION, 13);
      && s.phase == Ready && MapsOf(s.contexts) == map[0 := ONE_BYTE_MAP] && s.reportHandles == {2}
      && s.history.doneSubscriptions == [SUBSCRIBE]
    ensures !Faulted(ConfigOf(policy), CONNECTION, 13)
  {
    hide Run, ExpectedRun, Faulted;
    ConnectionStates(policy);
    ConnectionIsExpected(policy);
    DegradedMeansFault(ConfigOf(policy), CONNECTION, 13);
    assert MapsOf(DONE.contexts) == map[0 := ONE_BYTE_MAP];
  }

  lemma FirstStates(policy: Policy)
    ensures Run(ConfigOf(policy), CONNECTION, 0) == Setup.Fresh(Disconnected, 0)
    ensures Run(ConfigOf(policy), CONNECTION, 1) == Setup.Fresh(WaitingForDiscovery, 0)
    ensures Run(ConfigOf(policy), CONNECTION, 2) == Transition(Setup.Fresh(WaitingForDiscovery, 0), Inventory, 1)
    ensures Run(ConfigOf(policy), CONNECTION, 3) == PLANNED
  {
    InventoryStep(policy);
  }

  lemma StateAfter(config: Config, n: nat, s: State, t: State)
    requires 0 < n <= |CONNECTION| && Run(config, CONNECTION, n - 1) == s && Step(config, s, CONNECTION[n - 1]) == t
    ensures Run(config, CONNECTION, n) == t
  {
    hide Step;
  }

  lemma ReadStates(policy: Policy)
    ensures Run(ConfigOf(policy), CONNECTION, 8) == READ
  {
    hide Step, Run;
    var config := ConfigOf(policy);
    FirstStates(policy);
    MapRequested(config);
    StateAfter(config, 4, PLANNED, READING_MAP);
    MapArrives(config);
    StateAfter(config, 5, READING_MAP, HAS_MAP);
    ReferenceRequested(config);
    StateAfter(config, 6, HAS_MAP, READING_REFERENCE);
    ReferenceArrives(config);
    StateAfter(config, 7, READING_REFERENCE, HAS_REFERENCE);
    ReadsEnd(config);
    StateAfter(config, 8, HAS_REFERENCE, READ);
  }

  lemma ConnectionStates(policy: Policy)
    ensures Run(ConfigOf(policy), CONNECTION, 13) == DONE
  {
    hide Step, Run;
    var config := ConfigOf(policy);
    ReadStates(policy);
    BuildStep(policy);
    StateAfter(config, 9, READ, REGISTERING);
    SubscriptionRequested(config);
    StateAfter(config, 10, REGISTERING, SUBSCRIBING);
    SubscriptionConfirmed(config);
    StateAfter(config, 11, SUBSCRIBING, WAITING);
    StateAfter(config, 12, WAITING, SUBSCRIBED);
    SetupEnds(config);
    StateAfter(config, 13, SUBSCRIBED, DONE);
  }

  lemma ConnectionIsExpected(policy: Policy)
    ensures ExpectedRun(ConfigOf(policy), CONNECTION)
  {
    hide Step;
    FirstStates(policy);
    var config := ConfigOf(policy);
    forall i | 0 <= i < |CONNECTION|
      ensures Expected(Run(config, CONNECTION, i), CONNECTION[i])
    {
      if i == 1 {
        assert NoWorkLeft(Run(config, CONNECTION, 1));
      }
    }
  }

  // ---------- its first report ----------

  lemma SingleBit(k: nat)
    requires k < 8
    ensures BitAt([1], k) <==> k == 0
  {
    if k > 0 {
      Pow2Monotone(1, k);
    }
  }

  lemma SingleSlice(k: nat)
    requires k < 8
    ensures BitSlice([1], k, 1) == [k == 0] && FromBits([k == 0]) == if k == 0 then 1 else 0
  {
    hide BitAt;
    SingleBit(k);
    assert [k == 0][1..] == [];
  }

  lemma PressedBit(k: nat)
    requires k < 8
    ensures ReadField([1], k, 1, false) == Some(if k == 0 then 1 else 0)
  {
    hide BitSlice, FromBits;
    SingleSlice(k);
  }

  /** Eight one-bit values from bit 0 on, absolute and without usages. */
  predicate EightButtons(field: Field) {
    && field.bitOffset == 0 && field.reportSize == 1 && field.reportCount == 8 && field.flags == 2
    && field.logical == Range(0, 1) && field.usages == [] && !field.hasUsageRange && field.id == 0
  }

  lemma PressedReading(field: Field, k: nat)
    requires k < 8 && EightButtons(field)
    ensures HidDecoder.Reading(field, k, [1]) == Some(if k == 0 then 1 else 0)
    ensures LastAt(FreshRuntime(field).lastValues, k) == 0
  {
    hide ReadField;
    PressedBit(k);
  }

  lemma PressedEmits(field: Field, k: nat)
    requires k < 8 && EightButtons(field)
    ensures Emits(field, 0, Some(if k == 0 then 1 else 0)) <==> k == 0
  {
  }

  lemma {:induction false} PressedValues(schema: Schema, report: HidSchema.Report, field: Field, n: nat)
    requires n <= 8 && EightButtons(field)
    ensures ScalarEvents(schema, report, field, FreshRuntime(field).lastValues, [1], n)
      == if n == 0 then [] else [ScalarValue(schema, report, field, 0, 1)]
  {
    hide HidDecoder.Reading, Emits, LastAt, FreshRuntime, ScalarValue, EightButtons;
    if n > 0 {
      PressedValues(schema, report, field, n - 1);
      PressedReading(field, n - 1);
      PressedEmits(field, n - 1);
    }
  }

  lemma PressedField(schema: Schema, report: HidSchema.Report, field: Field)
    requires EightButtons(field)
    ensures FieldEvents(schema, report, field, RuntimeOf(map[], field), [1])
      == [ScalarValue(schema, report, field, 0, 1)]
  {
    hide ScalarEvents, ScalarValue, FreshRuntime;
    PressedValues(schema, report, field, 8);
  }

  lemma PressedValue(schema: Schema, report: HidSchema.Report, field: Field)
    requires EightButtons(field)
    ensures var v := ScalarValue(schema, report, field, 0, 1);
      && v.reportId == report.reportId && v.fieldId == 0 && v.value == 1 && v.raw == 1
      && !v.isRelative && v.aggregation == Passthrough
  {
    hide ApplicationUsage;
  }

  lemma PressedEvents(schema: Schema, report: HidSchema.Report)
    requires |schema.fields| == 1 && report.fieldIds == [0] && EightButtons(schema.fields[0])
    ensures Linked(schema.fields, report)
    ensures ReportEvents(schema, report, map[], [1], 1) == [ScalarValue(schema, report, schema.fields[0], 0, 1)]
  {
    hide FieldEvents, ScalarValue, RuntimeOf, EightButtons;
    PressedField(schema, report, schema.fields[0]);
    assert RuntimeAfter(schema, report, map[], [1], 0) == map[];
    assert ReportEvents(schema, report, map[], [1], 0) == [];
  }

  lemma PressedRoute()
    ensures RouteOf(ONE_BYTE_MAP, INPUT_SOURCE.(hasTransport := true), Bytes([1])) == HidDecoder.Decode(Exact, 0, [1])
  {
    assert ReportIndex(ONE_BYTE_MAP.reports, Input, 0) == 0;
    assert ONE_BYTE_MAP.reports[0].ByteSize() == 1;
  }

  lemma PressIsDecoded(schema: Schema, report: Q.Report)
    requires MapsOk(map[0 := schema]) && report.payload == [1]
    requires report.source.serviceInstance == 0 && !IsBoot(report.source)
    requires RouteOf(schema, report.source, Bytes([1])) == HidDecoder.Decode(Exact, 0, [1])
    requires |schema.fields| == 1 && schema.reports[0].fieldIds == [0] && EightButtons(schema.fields[0])
    ensures var maps: Maps := map[0 := schema];
      var decoded := DecodeReport(maps, EndToEnd.Fresh(maps), report);
      decoded.status == Exact && decoded.recognized
      && decoded.values
         == Stamp([ScalarValue(schema, schema.reports[0], schema.fields[0], 0, 1)], report.source.handle)
  {
    hide ReportEvents, RuntimeAfter, RouteOf, ReportIndex, ScalarValue, EightButtons, MapsOk;
    PressedEvents(schema, schema.reports[0]);
  }

  lemma OneByteIsPressed(seqId: nat)
    ensures MapsOk(map[0 := ONE_BYTE_MAP])
    ensures var maps: Maps := map[0 := ONE_BYTE_MAP];
      var decoded := DecodeReport(maps, EndToEnd.Fresh(maps),
                                  Q.Report(INPUT_SOURCE.(hasTransport := true), [1], seqId));
      && decoded.status == Exact && decoded.recognized && |decoded.values| == 1
      && var v := decoded.values[0];
         && v.handle == 2 && v.reportId == 0 && v.fieldId == 0
         && v.value == 1 && v.raw == 1 && !v.isRelative && v.aggregation == Passthrough
  {
    hide DecodeReport, RouteOf, ScalarValue, MapsOk;
    OneByteMapIsOk();
    PressedRoute();
    PressIsDecoded(ONE_BYTE_MAP, Q.Report(INPUT_SOURCE.(hasTransport := true), [1], seqId));
    PressedValue(ONE_BYTE_MAP, ONE_BYTE_MAP.reports[0], ONE_BUTTON);
  }

  /** The notification with its first bit set, behind READY: one value is reported, a 1 at bit 0 of the
      report of the subscribed characteristic. */
  lemma FirstButtonIsReported(policy: Policy, seqId: nat)
    ensures var s := Run(ConfigOf(policy), CONNECTION, 13);
      var maps := MapsOf(s.contexts);
      && MapsOk(maps)
      && var decoded := DecodeReport(maps, EndToEnd.Fresh(maps), Q.Report(SourceFor(s, 2, true), [1], seqId));
         && decoded.status == Exact && decoded.recognized && |decoded.values| == 1
         && var v := decoded.values[0];
            && v.handle == 2 && v.reportId == 0 && v.fieldId == 0
            && v.value == 1 && v.raw == 1 && !v.isRelative && v.aggregation == Passthrough
  {
    hide Run, DecodeReport, MapsOk;
    ConnectionStates(policy);
    assert MapsOf(DONE.contexts) == map[0 := ONE_BYTE_MAP];
    OneByteIsPressed(seqId);
  }
}
