/** Safety of connection setup over whole runs: READY is honest, terminal phases are clean, and an
    attempt makes at most one CCCD write of its own. */
module SetupProofs {
  import opened Integers
  import HidCompiler
  import S = Subscription
  import opened HidSchema
  import opened SetupPlan
  import opened Setup

  ghost predicate NoWorkLeft(s: State) {
    s.activeRead.None? && s.readQueue == [] && s.activeSubscription.None? && s.subscriptionQueue == []
      && s.attempt.stage == S.Idle
  }

  /** The assumption about the stack: service discovery completes only while nothing is in flight, which
      holds while it is awaited. The handler itself does not check the phase. */
  ghost predicate Expected(s: State, event: Event) {
    && (event.DiscoveryComplete? ==> NoWorkLeft(s))
    && (event.Tick? ==> event.now <= event.later)
  }

  function RunFrom(config: Config, s: State, events: seq<Event>, n: nat): State
    requires n <= |events|
  {
    if n == 0 then s else Step(config, RunFrom(config, s, events, n - 1), events[n - 1])
  }

  ghost predicate ExpectedFrom(config: Config, s: State, events: seq<Event>) {
    forall i | 0 <= i < |events| :: Expected(RunFrom(config, s, events, i), events[i])
  }

  function Run(config: Config, events: seq<Event>, n: nat): State
    requires n <= |events|
  {
    RunFrom(config, Fresh(Disconnected, 0), events, n)
  }

  ghost predicate ExpectedRun(config: Config, events: seq<Event>) {
    ExpectedFrom(config, Fresh(Disconnected, 0), events)
  }

  // ---------- no work outside its phase ----------

  /** The attempt belongs to the active subscription, and it has written at most once. */
  ghost predicate AttemptOk(s: State) {
    && (s.activeSubscription.None? <==> s.attempt.stage == S.Idle)
    && (s.activeSubscription.Some? ==>
          && s.activeSubscription.value.cccdHandle != 0
          && s.attempt.characteristicHandle == s.activeSubscription.value.characteristicHandle
          && s.attempt.cccdHandle == s.activeSubscription.value.cccdHandle
          && s.history.ownWrites == (if s.attempt.ownWriteAttempted then 1 else 0)
          && (s.attempt.ownWriteAttempted ==> s.attempt.stage == S.WaitingForCccd))
    && s.history.ownWrites <= 1
    && (s.phase == WaitingForCccd <==> s.attempt.stage == S.WaitingForCccd)
  }

  ghost predicate Orderly(s: State) {
    && AttemptOk(s)
    && (s.phase != Reading ==> s.activeRead.None? && s.readQueue == [])
    && (s.phase != Registering && s.phase != WaitingForCccd ==>
          s.activeSubscription.None? && s.subscriptionQueue == [])
  }

  lemma InventoryOrderly(config: Config, s: State, now: nat, answer: Answer)
    requires Orderly(s) && s.phase == Inventory
    ensures Orderly(TakeInventory(config, s, now, answer))
  {
    hide PlanReads, HidContexts;
  }

  lemma StartReadOrderly(s: State, now: nat, scheduled: bool)
    requires Orderly(s) && s.phase == Reading
    ensures Orderly(StartNextRead(s, now, scheduled))
  {
  }

  lemma BuildOrderly(s: State)
    requires Orderly(s)
    ensures Orderly(BuildProfile(s)) && BuildProfile(s).phase == s.phase && BuildProfile(s).services == s.services
    ensures BuildProfile(s).phaseStarted == s.phaseStarted
  {
    hide BuildProfiles;
  }

  lemma ProtocolWriteOrderly(config: Config, s: State, now: nat, scheduled: bool)
    requires Orderly(s) && (s.phase == BuildingProfile || s.phase == WritingProtocolMode)
    ensures Orderly(StartProtocolWrite(config, s, now, scheduled))
  {
    hide PlanSubscriptions, ProtocolHandles;
  }

  lemma SubscribeOrderly(s: State, now: nat, scheduled: bool)
    requires Orderly(s) && s.phase == Registering
    ensures Orderly(StartNextSubscription(s, now, scheduled))
  {
  }

  lemma WriteCccdOrderly(s: State, now: nat, scheduled: bool)
    requires Orderly(s) && s.phase == WaitingForCccd && !s.attempt.ownWriteAttempted
    ensures Orderly(WriteCccd(s, now, scheduled))
  {
  }

  lemma AdvanceOrderly(config: Config, s: State, now: nat, answer: Answer)
    requires Orderly(s)
    ensures Orderly(Advance(config, s, now, answer))
  {
    hide TakeInventory, StartNextRead, BuildProfile, StartProtocolWrite, StartNextSubscription, WriteCccd, Orderly;
    match s.phase {
      case Inventory => InventoryOrderly(config, s, now, answer);
      case Reading => StartReadOrderly(s, now, answer.scheduled);
      case BuildingProfile =>
        BuildOrderly(s);
        ProtocolWriteOrderly(config, BuildProfile(s), now, answer.scheduled);
      case WritingProtocolMode => ProtocolWriteOrderly(config, s, now, answer.scheduled);
      case Registering => SubscribeOrderly(s, now, answer.scheduled);
      case WaitingForCccd =>
        if s.activeSubscription.Some? && S.FallbackDue(s.attempt, Wrapped(now)) {
          WriteCccdOrderly(s, now, answer.scheduled);
        }
      case _ =>
    }
  }

  /** What processing a value leaves alone. */
  lemma ProcessFrame(s: State, op: ReadOp, bytes: seq<uint8>)
    ensures var t := ProcessReadValue(s, op, bytes);
      && t == s.(degraded := t.degraded, contexts := t.contexts, sources := t.sources)
      && (s.degraded ==> t.degraded)
  {
    hide HidCompiler.Compile, LengthFits, ProcessReportReference;
    if op.purpose == ReportReference {
      ReferenceFrame(s, op, bytes);
    }
  }

  lemma ReferenceFrame(s: State, op: ReadOp, bytes: seq<uint8>)
    ensures var t := ProcessReportReference(s, op, bytes);
      t == s.(degraded := t.degraded, sources := t.sources) && (s.degraded ==> t.degraded)
  {
    hide SourceOf;
  }

  lemma ReadOrderly(s: State, handle: uint16, success: bool, value: Buffer)
    requires Orderly(s)
    ensures Orderly(FinishRead(s, handle, success, value))
    ensures FinishRead(s, handle, success, value).phase == s.phase
    ensures s.degraded ==> FinishRead(s, handle, success, value).degraded
  {
    hide ProcessReadValue;
    if s.activeRead.Some? {
      ProcessFrame(s.(activeRead := None), s.activeRead.value, if value.Null? then [] else value.bytes);
    }
  }

  lemma FailOrderly(s: State, sub: Subscription, now: nat)
    requires Orderly(s) && (s.phase == Registering || s.phase == WaitingForCccd)
    ensures Orderly(FailAttempt(s, sub, now))
  {
  }

  lemma CompleteOrderly(s: State, sub: Subscription, now: nat)
    requires Orderly(s) && (s.phase == Registering || s.phase == WaitingForCccd)
    ensures Orderly(CompleteAttempt(s, sub, now))
  {
  }

  lemma RegistrationOrderly(s: State, handle: uint16, success: bool, now: nat)
    requires Orderly(s)
    ensures Orderly(FinishRegistration(s, handle, success, now))
  {
    if s.activeSubscription.Some? && S.RegistrationDecision(s.attempt, handle, success) == S.Failed {
      var sub := s.activeSubscription.value;
      FailOrderly(s, sub, now);
      assert FinishRegistration(s, handle, success, now) == FailAttempt(s, sub, now);
    }
  }

  /** A CCCD callback does one of four things. */
  lemma CccdCases(s: State, handle: uint16, success: bool, now: nat, scheduled: bool)
    requires Orderly(s)
    ensures var t, decision := FinishCccdWrite(s, handle, success, now, scheduled),
      S.CccdDecision(s.attempt, handle, success);
      if s.activeSubscription.None? || decision == S.Unmatched then t == s
      else
        && s.phase == WaitingForCccd
        && (decision == S.Complete ==> t == CompleteAttempt(s, s.activeSubscription.value, now))
        && (decision == S.RetryCccd ==> t == WriteCccd(s, now, scheduled) && !s.attempt.ownWriteAttempted)
        && (decision == S.Failed ==> t == FailAttempt(s, s.activeSubscription.value, now))
        && decision != S.WaitForCccd
  {
    hide WriteCccd;
  }

  lemma CccdOrderly(s: State, handle: uint16, success: bool, now: nat, scheduled: bool)
    requires Orderly(s)
    ensures Orderly(FinishCccdWrite(s, handle, success, now, scheduled))
  {
    hide FinishCccdWrite, WriteCccd, CompleteAttempt, FailAttempt, S.CccdDecision, Orderly;
    CccdCases(s, handle, success, now, scheduled);
    if s.activeSubscription.Some? && S.CccdDecision(s.attempt, handle, success) != S.Unmatched {
      CompleteOrderly(s, s.activeSubscription.value, now);
      FailOrderly(s, s.activeSubscription.value, now);
      if !s.attempt.ownWriteAttempted {
        WriteCccdOrderly(s, now, scheduled);
      }
    }
  }

  lemma TimeoutOrderly(s: State, now: nat)
    requires Orderly(s)
    ensures Orderly(CheckTimeout(s, now))
  {
    hide TimedOut;
  }

  lemma OtherOrderly(config: Config, s: State, event: Event)
    requires Orderly(s) && Expected(s, event)
    requires event.Connect? || event.Disconnect? || event.DiscoveryComplete? || event.Congestion?
    ensures Orderly(Step(config, s, event))
  {
  }

  /** Every expected event keeps the protocol state orderly. */
  lemma StepOrderly(config: Config, s: State, event: Event)
    requires Orderly(s) && Expected(s, event)
    ensures Orderly(Step(config, s, event))
  {
    hide Advance, FinishRead, FinishRegistration, FinishCccdWrite, CheckTimeout, Orderly;
    match event
    case Tick(now, later, answer) =>
      AdvanceOrderly(config, s, now, answer);
      TimeoutOrderly(Advance(config, s, now, answer), later);
    case ReadDone(_, handle, success, value) => ReadOrderly(s, handle, success, value);
    case RegistrationDone(now, handle, success) => RegistrationOrderly(s, handle, success, now);
    case CccdWriteDone(now, handle, success, scheduled) => CccdOrderly(s, handle, success, now, scheduled);
    case _ => OtherOrderly(config, s, event);
  }

  lemma {:induction false} RunFromOrderly(config: Config, s: State, events: seq<Event>, n: nat)
    requires n <= |events| && Orderly(s) && ExpectedFrom(config, s, events)
    ensures Orderly(RunFrom(config, s, events, n))
  {
    hide Step, Orderly, Expected;
    if n > 0 {
      RunFromOrderly(config, s, events, n - 1);
      StepOrderly(config, RunFrom(config, s, events, n - 1), events[n - 1]);
    }
  }

  lemma RunOrderly(config: Config, events: seq<Event>, n: nat)
    requires n <= |events| && ExpectedRun(config, events)
    ensures Orderly(Run(config, events, n))
  {
    hide RunFrom, Orderly, ExpectedFrom;
    FreshOrderly(Disconnected, 0);
    RunFromOrderly(config, Fresh(Disconnected, 0), events, n);
  }

  lemma FreshOrderly(phase: Phase, now: nat)
    requires phase == Disconnected || phase == WaitingForDiscovery
    ensures Orderly(Fresh(phase, now))
  {
  }

  /** Every terminal phase has nothing active and nothing queued. */
  lemma TerminalIsClean(config: Config, events: seq<Event>, n: nat)
    requires n <= |events| && ExpectedRun(config, events) && IsTerminal(Run(config, events, n).phase)
    ensures NoWorkLeft(Run(config, events, n))
  {
    hide Run;
    RunOrderly(config, events, n);
  }

  /** No attempt makes more than one CCCD write of its own, in any order of callbacks; the active
      subscription and the attempt come and go together. */
  lemma AttemptsWriteOnce(config: Config, events: seq<Event>, n: nat)
    requires n <= |events| && ExpectedRun(config, events)
    ensures var s := Run(config, events, n);
      s.history.ownWrites <= 1 && (s.activeSubscription.None? <==> s.attempt.stage == S.Idle)
  {
    RunOrderly(config, events, n);
  }

  /** Callbacks that do not belong to the active operation change nothing. */
  lemma UnmatchedCallbacksStutter(config: Config, s: State, event: Event)
    requires Orderly(s)
    requires match event
      case ReadDone(_, handle, _, _) => s.activeRead.None? || s.activeRead.value.handle != handle
      case RegistrationDone(_, handle, _) =>
        s.phase != Registering || s.activeSubscription.None?
          || s.activeSubscription.value.characteristicHandle != handle
      case CccdWriteDone(_, handle, _, _) =>
        s.phase != WaitingForCccd || s.activeSubscription.value.cccdHandle != handle
      case _ => false
    ensures Step(config, s, event) == s
  {
  }

  /** A discovery event keeps the protocol state orderly exactly when nothing is in flight. */
  lemma DiscoveryOrderly(config: Config, s: State, now: nat, success: bool)
    requires Orderly(s)
    ensures Orderly(Step(config, s, DiscoveryComplete(now, success))) <==> NoWorkLeft(s)
  {
  }

  /** Whatever happens next, as long as it is expected, terminal phases are clean. */
  ghost predicate CleanFrom(config: Config, s: State) {
    forall events | ExpectedFrom(config, s, events) && IsTerminal(RunFrom(config, s, events, |events|).phase) ::
      NoWorkLeft(RunFrom(config, s, events, |events|))
  }

  /** A way from a discovery event with work in flight into an unclean terminal phase: a failure is one
      at once, a success becomes one when the inventory finds no services. */
  function UncleanWay(now: nat, success: bool): seq<Event> {
    if success then [Tick(now, now, Answer(true, [], true, false))] else []
  }

  lemma UncleanAfterDiscovery(config: Config, s: State, now: nat, success: bool)
    requires !NoWorkLeft(s)
    ensures var t, way := Step(config, s, DiscoveryComplete(now, success)), UncleanWay(now, success);
      && ExpectedFrom(config, t, way) && IsTerminal(RunFrom(config, t, way, |way|).phase)
      && !NoWorkLeft(RunFrom(config, t, way, |way|))
  {
    var t, way := Step(config, s, DiscoveryComplete(now, success)), UncleanWay(now, success);
    assert RunFrom(config, t, way, 0) == t;
    if success {
      assert RunFrom(config, t, way, 1) == Step(config, t, way[0]);
    }
  }

  /** The exact condition of the assumption: behind a discovery event of either outcome, in any orderly
      state, all terminal phases are clean if and only if nothing was in flight. */
  lemma DiscoveryIsExact(config: Config, s: State, now: nat, success: bool)
    requires Orderly(s)
    ensures CleanFrom(config, Step(config, s, DiscoveryComplete(now, success))) <==> NoWorkLeft(s)
  {
    hide Step, NoWorkLeft, RunFrom, ExpectedFrom, Orderly;
    var t := Step(config, s, DiscoveryComplete(now, success));
    DiscoveryOrderly(config, s, now, success);
    if NoWorkLeft(s) {
      forall events | ExpectedFrom(config, t, events) && IsTerminal(RunFrom(config, t, events, |events|).phase)
        ensures NoWorkLeft(RunFrom(config, t, events, |events|))
      {
        RunFromOrderly(config, t, events, |events|);
        OrderlyTerminal(RunFrom(config, t, events, |events|));
      }
    } else {
      UncleanAfterDiscovery(config, s, now, success);
    }
  }

  lemma OrderlyTerminal(s: State)
    requires Orderly(s) && IsTerminal(s.phase)
    ensures NoWorkLeft(s)
  {
  }

  const ONE_MAP: Services := [Service(HID_SERVICE, [Characteristic(HID_REPORT_MAP, 1, true, false, false, [])])]

  /** A stack that reports discovery twice: the second report ends setup in front of the read. */
  const LATE_RUN: seq<Event> := [
    Connect(0), DiscoveryComplete(0, true), Tick(0, 0, Answer(true, ONE_MAP, true, false)), DiscoveryComplete(0, false)]

  lemma LateDiscoveryRun(config: Config)
    ensures IsTerminal(Run(config, LATE_RUN, 4).phase) && !NoWorkLeft(Run(config, LATE_RUN, 4))
  {
    var service := ONE_MAP[0];
    assert PlanReads(config, ONE_MAP, 0) == NO_READS;
    assert PlanService(config, service, 0, NO_READS, 0) == NO_READS;
    var op := ReadOp(1, 1, 0, ReportMap, true);
    var c := service.characteristics[0];
    assert PlanCharacteristic(config, HID_SERVICE, 0, c, NO_READS)
      == PlanDescriptors(config, 0, c, AddRead(NO_READS, op), 0);
    assert PlanReads(config, ONE_MAP, 1).ops == [op];
    var s1 := Run(config, LATE_RUN, 1);
    assert s1 == Fresh(WaitingForDiscovery, 0);
    var s2 := Run(config, LATE_RUN, 2);
    assert s2 == Transition(s1, Inventory, 0);
    var s3 := Run(config, LATE_RUN, 3);
    assert 0 in HidContexts(ONE_MAP);
    assert s3.phase == Reading && s3.readQueue == [op];
  }

  // ---------- READY is honest ----------

  /** A required read was answered with a report map that compiles, and its service has a map. */
  ghost predicate Finished(s: State, op: ReadOp) {
    && op.service in s.contexts && s.contexts[op.service].reportMap.Some?
    && exists d | d in s.history.doneReads :: d.op == op && HidCompiler.Compile(d.bytes).Some?
  }

  ghost predicate ReadKept(s: State, op: ReadOp) {
    op in s.readQueue || s.activeRead == Some(op) || Finished(s, op)
  }

  ghost predicate ReadsOk(config: Config, s: State) {
    && s.history.plannedReads == PlanReads(config, s.services, |s.services|).ops
    && !PlanReads(config, s.services, |s.services|).overflow
    && (forall op | op in s.history.plannedReads :: op.required ==> op.purpose == ReportMap && ReadKept(s, op))
    && (forall op | op in s.readQueue :: op.required ==> op.purpose == ReportMap)
    && (s.activeRead.Some? && s.activeRead.value.required ==> s.activeRead.value.purpose == ReportMap)
  }

  ghost predicate AllReferencesOk(s: State) {
    forall i | 0 <= i < |s.services| :: ReferencesOk(s.sources, s.contexts, s.services, i)
  }

  ghost predicate SubscriptionKept(s: State, sub: Subscription) {
    sub in s.subscriptionQueue || s.activeSubscription == Some(sub) || sub in s.history.doneSubscriptions
  }

  ghost predicate SubscriptionsOk(config: Config, s: State) {
    && s.history.plannedSubscriptions == PlanSubscriptions(config, s.services, |s.services|).list
    && !PlanSubscriptions(config, s.services, |s.services|).overflow
    && forall sub | sub in s.history.plannedSubscriptions :: sub.required ==> SubscriptionKept(s, sub)
  }

  predicate PastInventory(phase: Phase) {
    phase in {Reading, BuildingProfile, WritingProtocolMode, Registering, WaitingForCccd, Ready}
  }

  predicate PastBuilding(phase: Phase) {
    phase in {WritingProtocolMode, Registering, WaitingForCccd, Ready}
  }

  predicate PastPlanning(phase: Phase) {
    phase in {Registering, WaitingForCccd, Ready}
  }

  /** As long as setup is not degraded, everything required is done or still to be done. */
  ghost predicate Honest(config: Config, s: State) {
    && (s.phase == Degraded ==> s.degraded)
    && (s.phase == Ready ==> !s.degraded)
    && (!s.degraded ==>
          && (PastInventory(s.phase) ==> ReadsOk(config, s))
          && (PastBuilding(s.phase) ==> AllReferencesOk(s))
          && (PastPlanning(s.phase) ==> SubscriptionsOk(config, s)))
  }

  // The plan marks only report maps as required.

  ghost predicate RequiresMapsOnly(ops: seq<ReadOp>) {
    forall op | op in ops :: op.required ==> op.purpose == ReportMap
  }

  lemma AddReadRequires(plan: ReadPlan, op: ReadOp)
    requires RequiresMapsOnly(plan.ops) && (op.required ==> op.purpose == ReportMap)
    ensures RequiresMapsOnly(AddRead(plan, op).ops)
  {
  }

  lemma {:induction false} PlanDescriptorsRequires(config: Config, instance: uint16, c: Characteristic, plan: ReadPlan,
                                                   n: nat)
    requires n <= |c.descriptors| && RequiresMapsOnly(plan.ops)
    ensures RequiresMapsOnly(PlanDescriptors(config, instance, c, plan, n).ops)
  {
    hide RequiresMapsOnly, AddRead;
    if n > 0 {
      PlanDescriptorsRequires(config, instance, c, plan, n - 1);
      var d := c.descriptors[n - 1];
      AddReadRequires(PlanDescriptors(config, instance, c, plan, n - 1),
                      ReadOp(d.handle, c.handle, instance, OrGeneric(DescriptorPurpose(d.uuid)), false));
    }
  }

  lemma {:induction false} PlanServiceRequires(config: Config, service: Service, instance: uint16, plan: ReadPlan,
                                               n: nat)
    requires n <= |service.characteristics| && RequiresMapsOnly(plan.ops)
    ensures RequiresMapsOnly(PlanService(config, service, instance, plan, n).ops)
  {
    hide RequiresMapsOnly, AddRead, PlanDescriptors, StandardPurpose;
    if n > 0 {
      var before, c := PlanService(config, service, instance, plan, n - 1), service.characteristics[n - 1];
      PlanServiceRequires(config, service, instance, plan, n - 1);
      var purpose := StandardPurpose(service.uuid, c.uuid);
      var op := ReadOp(c.handle, c.handle, instance, OrGeneric(purpose), purpose == Some(ReportMap));
      AddReadRequires(before, op);
      PlanDescriptorsRequires(config, instance, c, before, |c.descriptors|);
      PlanDescriptorsRequires(config, instance, c, AddRead(before, op), |c.descriptors|);
    }
  }

  lemma {:induction false} PlanRequiresMapsOnly(config: Config, services: Services, n: nat)
    requires n <= |services|
    ensures RequiresMapsOnly(PlanReads(config, services, n).ops)
  {
    if n > 0 {
      PlanRequiresMapsOnly(config, services, n - 1);
      PlanServiceRequires(config, services[n - 1], n - 1, PlanReads(config, services, n - 1),
                          |services[n - 1].characteristics|);
    }
  }

  lemma InventoryHonest(config: Config, s: State, now: nat, answer: Answer)
    requires Orderly(s) && s.phase == Inventory
    ensures Honest(config, TakeInventory(config, s, now, answer))
  {
    hide PlanReads, HidContexts;
    var services := answer.services;
    PlanRequiresMapsOnly(config, services, |services|);
  }

  lemma StartReadHonest(config: Config, s: State, now: nat, scheduled: bool)
    requires Honest(config, s) && s.phase == Reading
    ensures Honest(config, StartNextRead(s, now, scheduled))
  {
    hide PlanReads, Finished;
    var t := StartNextRead(s, now, scheduled);
    if !t.degraded {
      assert t.contexts == s.contexts && t.history.doneReads == s.history.doneReads;
      forall op | op in t.history.plannedReads && op.required
        ensures ReadKept(t, op)
      {
        assert ReadKept(s, op);
        FinishedSame(s, t, op);
        if op in s.readQueue && op !in t.readQueue {
          assert op == s.readQueue[0];
        }
      }
    }
  }

  lemma FinishedSame(s: State, t: State, op: ReadOp)
    requires t.contexts == s.contexts && t.history.doneReads == s.history.doneReads
    ensures Finished(t, op) == Finished(s, op)
  {
  }

  /** Unless it degrades setup, processing keeps every report map, and a report map is only stored
      when it compiles. */
  lemma ProcessMaps(s: State, op: ReadOp, bytes: seq<uint8>)
    requires !ProcessReadValue(s, op, bytes).degraded
    ensures var t := ProcessReadValue(s, op, bytes);
      && t.contexts.Keys == s.contexts.Keys
      && (forall i | i in s.contexts :: s.contexts[i].reportMap.Some? ==> t.contexts[i].reportMap.Some?)
      && (op.purpose == ReportMap ==>
            op.service in t.contexts && t.contexts[op.service].reportMap.Some? && HidCompiler.Compile(bytes).Some?)
  {
    hide HidCompiler.Compile, LengthFits, SourceOf;
  }

  lemma ReadHonest(config: Config, s: State, handle: uint16, success: bool, value: Buffer)
    requires Honest(config, s) && Orderly(s)
    ensures Honest(config, FinishRead(s, handle, success, value))
  {
    if s.activeRead.Some? && s.activeRead.value.handle == handle {
      assert s.phase == Reading;
      var op, t := s.activeRead.value, FinishRead(s, handle, success, value);
      ReadOrderly(s, handle, success, value);
      if !t.degraded {
        ReadKeepsReads(config, s, handle, success, value);
      }
    }
  }

  lemma ReadKeepsReads(config: Config, s: State, handle: uint16, success: bool, value: Buffer)
    requires ReadsOk(config, s) && s.activeRead.Some? && s.activeRead.value.handle == handle
    requires !FinishRead(s, handle, success, value).degraded
    ensures ReadsOk(config, FinishRead(s, handle, success, value))
  {
    hide PlanReads, HidCompiler.Compile, ProcessReadValue;
    var active, t := s.activeRead.value, FinishRead(s, handle, success, value);
    var bytes := if value.Null? then [] else value.bytes;
    var cleared := s.(activeRead := None);
    if t != cleared {
      assert t == ProcessReadValue(cleared, active, bytes).(
        history := s.history.(doneReads := s.history.doneReads + [DoneRead(active, bytes)]));
      ProcessFrame(cleared, active, bytes);
      ProcessMaps(cleared, active, bytes);
      assert DoneRead(active, bytes) in t.history.doneReads;
    }
    forall op | op in t.history.plannedReads && op.required
      ensures ReadKept(t, op)
    {
      assert ReadKept(s, op);
      if op !in s.readQueue && op != active {
        var d :| d in s.history.doneReads && d.op == op && HidCompiler.Compile(d.bytes).Some?;
        assert d in t.history.doneReads;
      }
    }
  }

  lemma ProfileHonest(config: Config, s: State)
    requires Honest(config, s) && s.phase == BuildingProfile && Orderly(s)
    ensures var t := BuildProfile(s);
      && t.phase == s.phase && Orderly(t)
      && (!t.degraded ==> ReadsOk(config, t) && AllReferencesOk(t))
  {
    hide PlanReads, BuildProfiles;
    var p := Profile(s.sources, s.contexts, s.reportHandles, s.degraded);
    BuildIsSound(p, s.services, |s.services|);
    var t := BuildProfile(s);
    if !t.degraded {
      forall op | op in t.history.plannedReads && op.required
        ensures ReadKept(t, op)
      {
        assert ReadKept(s, op);
        assert Finished(s, op);
      }
    }
  }

  /** Reads and references depend on these fields only. */
  ghost predicate SameReads(s: State, t: State) {
    && t.services == s.services && t.contexts == s.contexts && t.sources == s.sources
    && t.readQueue == s.readQueue && t.activeRead == s.activeRead && t.history.plannedReads == s.history.plannedReads
    && t.history.doneReads == s.history.doneReads && t.reportHandles == s.reportHandles
  }

  lemma ReadsKeep(config: Config, s: State, t: State)
    requires SameReads(s, t)
    ensures ReadsOk(config, s) ==> ReadsOk(config, t)
    ensures AllReferencesOk(s) ==> AllReferencesOk(t)
  {
    hide PlanReads, Finished, ReferencesOk;
    if ReadsOk(config, s) {
      forall op | op in t.history.plannedReads && op.required
        ensures ReadKept(t, op)
      {
        assert ReadKept(s, op);
        FinishedSame(s, t, op);
      }
    }
  }

  lemma WriteHonest(config: Config, s: State, now: nat, scheduled: bool)
    requires s.phase == BuildingProfile || s.phase == WritingProtocolMode
    requires !s.degraded ==> ReadsOk(config, s) && AllReferencesOk(s)
    ensures Honest(config, StartProtocolWrite(config, s, now, scheduled))
  {
    hide StartProtocolWrite, ReadsOk, AllReferencesOk;
    ProtocolWriteCases(config, s, now, scheduled);
    ReadsKeep(config, s, StartProtocolWrite(config, s, now, scheduled));
  }

  lemma ProtocolWriteCases(config: Config, s: State, now: nat, scheduled: bool)
    requires s.phase == BuildingProfile || s.phase == WritingProtocolMode
    ensures var t, plan := StartProtocolWrite(config, s, now, scheduled),
      PlanSubscriptions(config, s.services, |s.services|);
      && SameReads(s, t) && (s.degraded ==> t.degraded) && t.activeSubscription == s.activeSubscription
      && (t.phaseStarted == s.phaseStarted || t.phaseStarted == now)
      && ((t.phase == WritingProtocolMode && (s.phase == WritingProtocolMode ==> t.phaseStarted == s.phaseStarted))
          || (t.phase == Registering && t.history.plannedSubscriptions == t.subscriptionQueue == plan.list
              && (plan.overflow ==> t.degraded)))
  {
    hide PlanSubscriptions, ProtocolHandles;
  }

  /** The steps of the subscription phase leave what reading and building established alone. */
  ghost predicate SameFoundations(s: State, t: State) {
    SameReads(s, t) && t.history.plannedSubscriptions == s.history.plannedSubscriptions && (s.degraded ==> t.degraded)
  }

  lemma FoundationsKeep(config: Config, s: State, t: State)
    requires SameFoundations(s, t) && Honest(config, s) && PastPlanning(s.phase)
    requires PastPlanning(t.phase) || t.phase == Degraded
    requires (t.phase == Degraded ==> t.degraded) && (t.phase == Ready ==> !t.degraded)
    requires !t.degraded ==> forall sub | sub in s.history.plannedSubscriptions && sub.required ::
      SubscriptionKept(s, sub) ==> SubscriptionKept(t, sub)
    ensures Honest(config, t)
  {
    hide PlanSubscriptions, ReadsOk, AllReferencesOk, SubscriptionKept;
    ReadsKeep(config, s, t);
  }

  /** Taking the head of the queue loses only the head. */
  lemma StartKeepsSubscription(s: State, now: nat, scheduled: bool, sub: Subscription)
    requires SubscriptionKept(s, sub) && sub.required && !StartNextSubscription(s, now, scheduled).degraded
    ensures SubscriptionKept(StartNextSubscription(s, now, scheduled), sub)
  {
    if sub in s.subscriptionQueue && sub !in StartNextSubscription(s, now, scheduled).subscriptionQueue {
      assert sub == s.subscriptionQueue[0];
    }
  }

  lemma SubscribeHonest(config: Config, s: State, now: nat, scheduled: bool)
    requires Honest(config, s) && s.phase == Registering
    ensures Honest(config, StartNextSubscription(s, now, scheduled))
  {
    hide Honest, SubscriptionKept;
    var t := StartNextSubscription(s, now, scheduled);
    forall sub | sub in s.history.plannedSubscriptions && sub.required && SubscriptionKept(s, sub) && !t.degraded
      ensures SubscriptionKept(t, sub)
    {
      StartKeepsSubscription(s, now, scheduled, sub);
    }
    FoundationsKeep(config, s, t);
  }

  lemma FailHonest(config: Config, s: State, now: nat)
    requires Honest(config, s) && PastPlanning(s.phase) && s.activeSubscription.Some?
    ensures Honest(config, FailAttempt(s, s.activeSubscription.value, now))
  {
    hide Honest;
    FoundationsKeep(config, s, FailAttempt(s, s.activeSubscription.value, now));
  }

  lemma CompleteHonest(config: Config, s: State, now: nat)
    requires Honest(config, s) && PastPlanning(s.phase) && s.activeSubscription.Some?
    ensures Honest(config, CompleteAttempt(s, s.activeSubscription.value, now))
  {
    hide Honest;
    FoundationsKeep(config, s, CompleteAttempt(s, s.activeSubscription.value, now));
  }

  lemma RegistrationHonest(config: Config, s: State, handle: uint16, success: bool, now: nat)
    requires Honest(config, s) && Orderly(s)
    ensures Honest(config, FinishRegistration(s, handle, success, now))
  {
    hide Honest;
    var t, decision := FinishRegistration(s, handle, success, now), S.RegistrationDecision(s.attempt, handle, success);
    if s.activeSubscription.None? || decision == S.Unmatched {
      assert t == s;
    } else if decision == S.Failed {
      FailHonest(config, s, now);
      assert t == FailAttempt(s, s.activeSubscription.value, now);
    } else {
      FoundationsKeep(config, s, t);
    }
  }

  lemma WriteCccdHonest(config: Config, s: State, now: nat, scheduled: bool)
    requires Honest(config, s) && PastPlanning(s.phase) && s.activeSubscription.Some?
    requires s.phase == Ready ==> !s.degraded
    ensures Honest(config, WriteCccd(s, now, scheduled))
  {
    hide Honest;
    if scheduled {
      FoundationsKeep(config, s, WriteCccd(s, now, scheduled));
    } else {
      FailHonest(config, s, now);
      CountedFailHonest(config, FailAttempt(s, s.activeSubscription.value, now), s.activeSubscription.value);
    }
  }

  lemma CountedFailHonest(config: Config, s: State, sub: Subscription)
    requires Honest(config, s) && s.phase == Registering
    ensures Honest(config, s.(history := CountWrite(s.history, sub)))
  {
    hide Honest;
    FoundationsKeep(config, s, s.(history := CountWrite(s.history, sub)));
  }

  lemma CccdHonest(config: Config, s: State, handle: uint16, success: bool, now: nat, scheduled: bool)
    requires Honest(config, s) && Orderly(s)
    ensures Honest(config, FinishCccdWrite(s, handle, success, now, scheduled))
  {
    hide FinishCccdWrite, WriteCccd, CompleteAttempt, FailAttempt, S.CccdDecision, Orderly, Honest;
    CccdCases(s, handle, success, now, scheduled);
    if s.activeSubscription.Some? && S.CccdDecision(s.attempt, handle, success) != S.Unmatched {
      CompleteHonest(config, s, now);
      FailHonest(config, s, now);
      WriteCccdHonest(config, s, now, scheduled);
    }
  }

  lemma AdvanceHonest(config: Config, s: State, now: nat, answer: Answer)
    requires Honest(config, s) && Orderly(s)
    ensures Honest(config, Advance(config, s, now, answer))
  {
    match s.phase {
      case Inventory => InventoryHonest(config, s, now, answer);
      case Reading => StartReadHonest(config, s, now, answer.scheduled);
      case BuildingProfile =>
        ProfileHonest(config, s);
        WriteHonest(config, BuildProfile(s), now, answer.scheduled);
      case WritingProtocolMode => WriteHonest(config, s, now, answer.scheduled);
      case Registering => SubscribeHonest(config, s, now, answer.scheduled);
      case WaitingForCccd =>
        if s.activeSubscription.Some? {
          WriteCccdHonest(config, s, now, answer.scheduled);
        }
      case _ =>
    }
  }

  lemma TimeoutHonest(config: Config, s: State, now: nat)
    requires Honest(config, s)
    ensures Honest(config, CheckTimeout(s, now))
  {
    hide PlanReads, PlanSubscriptions;
  }

  lemma StepHonest(config: Config, s: State, event: Event)
    requires Honest(config, s) && Orderly(s) && Expected(s, event)
    ensures Honest(config, Step(config, s, event))
  {
    hide Advance, FinishRead, FinishRegistration, FinishCccdWrite, CheckTimeout, Honest, Orderly;
    match event
    case Connect(now) => FreshHonest(config, WaitingForDiscovery, now);
    case Disconnect(now) => FreshHonest(config, Disconnected, now);
    case DiscoveryComplete(now, success) => DiscoveryHonest(config, s, now, success);
    case ReadDone(_, handle, success, value) => ReadHonest(config, s, handle, success, value);
    case RegistrationDone(now, handle, success) => RegistrationHonest(config, s, handle, success, now);
    case CccdWriteDone(now, handle, success, scheduled) => CccdHonest(config, s, handle, success, now, scheduled);
    case Congestion(_, congested) => CongestionHonest(config, s, congested);
    case Tick(now, later, answer) =>
      AdvanceHonest(config, s, now, answer);
      TimeoutHonest(config, Advance(config, s, now, answer), later);
  }

  lemma FreshHonest(config: Config, phase: Phase, now: nat)
    requires phase == Disconnected || phase == WaitingForDiscovery
    ensures Honest(config, Fresh(phase, now))
  {
  }

  lemma DiscoveryHonest(config: Config, s: State, now: nat, success: bool)
    ensures Honest(config, Step(config, s, DiscoveryComplete(now, success)))
  {
  }

  lemma SubscriptionsKeep(config: Config, s: State, t: State)
    requires t.services == s.services && t.history.plannedSubscriptions == s.history.plannedSubscriptions
    requires t.subscriptionQueue == s.subscriptionQueue && t.activeSubscription == s.activeSubscription
    requires t.history.doneSubscriptions == s.history.doneSubscriptions
    ensures SubscriptionsOk(config, s) ==> SubscriptionsOk(config, t)
  {
    hide PlanSubscriptions, SubscriptionKept;
    if SubscriptionsOk(config, s) {
      forall sub | sub in t.history.plannedSubscriptions && sub.required
        ensures SubscriptionKept(t, sub)
      {
        SubscriptionKeptSame(s, t, sub);
      }
    }
  }

  lemma SubscriptionKeptSame(s: State, t: State, sub: Subscription)
    requires t.subscriptionQueue == s.subscriptionQueue && t.activeSubscription == s.activeSubscription
    requires t.history.doneSubscriptions == s.history.doneSubscriptions
    ensures SubscriptionKept(t, sub) == SubscriptionKept(s, sub)
  {
  }

  lemma CongestionHonest(config: Config, s: State, congested: bool)
    requires Honest(config, s)
    ensures Honest(config, s.(congested := congested))
  {
    hide PlanSubscriptions, ReadsOk, AllReferencesOk;
    ReadsKeep(config, s, s.(congested := congested));
    SubscriptionsKeep(config, s, s.(congested := congested));
  }

  lemma {:induction false} RunHonest(config: Config, events: seq<Event>, n: nat)
    requires n <= |events| && ExpectedRun(config, events)
    ensures Honest(config, Run(config, events, n))
  {
    hide Step, Honest, Expected;
    if n == 0 {
      FreshHonest(config, Disconnected, 0);
    } else {
      RunHonest(config, events, n - 1);
      RunOrderly(config, events, n - 1);
      StepHonest(config, Run(config, events, n - 1), events[n - 1]);
    }
  }

  // ---------- what is stored stems from the reads ----------

  /** What the last Report Map that was read for a service compiles to. */
  function LastMap(finished: seq<DoneRead>, service: uint16): Option<Schema> {
    if finished == [] then None
    else
      var d := finished[|finished| - 1];
      if d.op.purpose == ReportMap && d.op.service == service then HidCompiler.Compile(d.bytes)
      else LastMap(finished[..|finished| - 1], service)
  }

  ghost predicate MapsRead(contexts: Contexts, finished: seq<DoneRead>) {
    forall i | i in contexts :: contexts[i].reportMap == LastMap(finished, i)
  }

  ghost predicate Accepted(reportMap: Schema) {
    exists data :: HidCompiler.Compile(data) == Some(reportMap)
  }

  ghost predicate MapsAccepted(contexts: Contexts) {
    forall i | i in contexts && contexts[i].reportMap.Some? :: Accepted(contexts[i].reportMap.value)
  }

  /** Every stored map was accepted by the compiler. As long as setup is not degraded, the types of all
      references are known, and every service has the map that was read for it last. */
  ghost predicate Traced(s: State) {
    MapsAccepted(s.contexts) && (!s.degraded ==> TypesKnown(s.sources) && MapsRead(s.contexts, s.history.doneReads))
  }

  /** The step touches no report source, no report handle, no report map and no finished read, and
      repairs no degraded setup. */
  ghost predicate SameSources(s: State, t: State) {
    && t.sources == s.sources && t.contexts == s.contexts && t.history.doneReads == s.history.doneReads
    && t.reportHandles == s.reportHandles && (s.degraded ==> t.degraded)
  }

  lemma ProcessTypes(s: State, op: ReadOp, bytes: seq<uint8>)
    requires !s.degraded ==> TypesKnown(s.sources)
    ensures var t := ProcessReadValue(s, op, bytes); !t.degraded ==> TypesKnown(t.sources)
  {
    hide HidCompiler.Compile, LengthFits;
  }

  lemma ProcessAccepted(s: State, op: ReadOp, bytes: seq<uint8>)
    requires MapsAccepted(s.contexts)
    ensures MapsAccepted(ProcessReadValue(s, op, bytes).contexts)
  {
    hide HidCompiler.Compile, LengthFits, ProcessReportReference, Accepted;
    if op.purpose == ReportReference {
      ReferenceFrame(s, op, bytes);
    } else if HidCompiler.Compile(bytes).Some? {
      CompiledIsAccepted(bytes);
    }
  }

  lemma CompiledIsAccepted(data: seq<uint8>)
    requires HidCompiler.Compile(data).Some?
    ensures Accepted(HidCompiler.Compile(data).value)
  {
    hide HidCompiler.Compile;
  }

  lemma LastMapNext(finished: seq<DoneRead>, d: DoneRead, service: uint16)
    ensures LastMap(finished + [d], service)
      == (if d.op.purpose == ReportMap && d.op.service == service then HidCompiler.Compile(d.bytes)
          else LastMap(finished, service))
  {
    hide HidCompiler.Compile;
    assert (finished + [d])[..|finished|] == finished;
  }

  lemma OthersKeepMaps(s: State, op: ReadOp, bytes: seq<uint8>)
    requires op.purpose != ReportMap
    ensures SameMaps(s.contexts, ProcessReadValue(s, op, bytes).contexts)
  {
    hide LengthFits, ProcessReportReference;
    if op.purpose == ReportReference {
      ReferenceFrame(s, op, bytes);
    }
  }

  lemma ProcessMapsRead(s: State, op: ReadOp, bytes: seq<uint8>, finished: seq<DoneRead>)
    requires MapsRead(s.contexts, finished) && !ProcessReadValue(s, op, bytes).degraded
    ensures MapsRead(ProcessReadValue(s, op, bytes).contexts, finished + [DoneRead(op, bytes)])
  {
    hide HidCompiler.Compile, LastMap;
    forall i | i in s.contexts
      ensures LastMap(finished + [DoneRead(op, bytes)], i)
        == if op.purpose == ReportMap && op.service == i then HidCompiler.Compile(bytes) else LastMap(finished, i)
    {
      LastMapNext(finished, DoneRead(op, bytes), i);
    }
    if op.purpose != ReportMap {
      hide ProcessReadValue;
      OthersKeepMaps(s, op, bytes);
    }
  }

  lemma ReadTraced(s: State, handle: uint16, success: bool, value: Buffer)
    requires Traced(s)
    ensures Traced(FinishRead(s, handle, success, value))
  {
    hide ProcessReadValue, TypesKnown, MapsRead, MapsAccepted;
    if s.activeRead.Some? && s.activeRead.value.handle == handle {
      var op, t, bytes := s.activeRead.value, s.(activeRead := None), if value.Null? then [] else value.bytes;
      ProcessTypes(t, op, bytes);
      ProcessAccepted(t, op, bytes);
      ProcessFrame(t, op, bytes);
      if !ProcessReadValue(t, op, bytes).degraded {
        ProcessMapsRead(t, op, bytes, s.history.doneReads);
      }
    }
  }

  lemma BuildTraced(s: State)
    requires Traced(s)
    ensures Traced(BuildProfile(s)) && BuildProfile(s).phase == s.phase
  {
    hide BuildProfiles, TypesKnown, AnyDangling, LastMap, Accepted;
    var p := Profile(s.sources, s.contexts, s.reportHandles, s.degraded);
    BuildKeeps(p, s.services, |s.services|);
    if !s.degraded {
      BuildTypes(p, s.services, |s.services|);
    }
  }

  lemma BuildKeeps(p: Profile, services: Services, n: nat)
    requires n <= |services|
    ensures SameMaps(p.contexts, BuildProfiles(p, services, n).contexts)
    ensures p.degraded ==> BuildProfiles(p, services, n).degraded
  {
    hide ReferencesOk, BuildProfiles, SameMaps;
    BuildIsSound(p, services, n);
  }

  lemma NoMapsYet(services: Services)
    ensures MapsAccepted(HidContexts(services)) && MapsRead(HidContexts(services), [])
    ensures HidContexts(services) == map[] ==> forall finished :: MapsRead(HidContexts(services), finished)
  {
  }

  lemma InventoryTraced(config: Config, s: State, now: nat, answer: Answer)
    requires Traced(s)
    ensures Traced(TakeInventory(config, s, now, answer))
  {
    hide PlanReads, TypesKnown, HidContexts, MapsRead, MapsAccepted;
    NoMapsYet(answer.services);
  }

  lemma AttemptSources(s: State, sub: Subscription, now: nat)
    ensures SameSources(s, FailAttempt(s, sub, now)) && SameSources(s, CompleteAttempt(s, sub, now))
  {
  }

  lemma WriteSources(s: State, now: nat, scheduled: bool)
    ensures SameSources(s, WriteCccd(s, now, scheduled))
  {
    hide FailAttempt;
    if s.activeSubscription.Some? {
      var t := s.(attempt := s.attempt.(ownWriteAttempted := true),
                  history := CountWrite(s.history, s.activeSubscription.value));
      AttemptSources(t, s.activeSubscription.value, now);
    }
  }

  lemma SubscriptionSources(s: State, now: nat, scheduled: bool)
    ensures SameSources(s, StartNextSubscription(s, now, scheduled))
    ensures SameSources(s, WriteCccd(s, now, scheduled))
  {
    hide WriteCccd;
    WriteSources(s, now, scheduled);
  }

  lemma ReadSources(s: State, now: nat, scheduled: bool)
    ensures SameSources(s, StartNextRead(s, now, scheduled)) && SameSources(s, CheckTimeout(s, now))
  {
    hide TimedOut;
  }

  lemma RegistrationSources(s: State, handle: uint16, success: bool, now: nat)
    ensures SameSources(s, FinishRegistration(s, handle, success, now))
  {
    hide S.RegistrationDecision, FailAttempt;
    if s.activeSubscription.Some? {
      AttemptSources(s.(attempt := S.Registered(s.attempt, handle, success, Wrapped(now))), s.activeSubscription.value,
                     now);
    }
  }

  lemma CccdSources(s: State, handle: uint16, success: bool, now: nat, scheduled: bool)
    ensures SameSources(s, FinishCccdWrite(s, handle, success, now, scheduled))
  {
    hide S.CccdDecision, FailAttempt, CompleteAttempt, WriteCccd;
    if s.activeSubscription.Some? {
      var t := s.(attempt := S.CccdWritten(s.attempt, handle, success));
      AttemptSources(t, s.activeSubscription.value, now);
      WriteSources(t, now, scheduled);
    }
  }

  lemma SameIsTraced(s: State, t: State)
    requires Traced(s) && SameSources(s, t)
    ensures Traced(t)
  {
    hide TypesKnown, MapsRead, MapsAccepted;
  }

  lemma AdvanceTraced(config: Config, s: State, now: nat, answer: Answer)
    requires Traced(s)
    ensures Traced(Advance(config, s, now, answer))
  {
    hide TakeInventory, StartNextRead, BuildProfile, StartProtocolWrite, StartNextSubscription, WriteCccd, Traced,
      SameSources, S.FallbackDue;
    match s.phase {
      case Inventory => InventoryTraced(config, s, now, answer);
      case BuildingProfile =>
        BuildTraced(s);
        ProtocolWriteSources(config, BuildProfile(s), now, answer.scheduled);
        SameIsTraced(BuildProfile(s), StartProtocolWrite(config, BuildProfile(s), now, answer.scheduled));
      case WritingProtocolMode =>
        ProtocolWriteSources(config, s, now, answer.scheduled);
        SameIsTraced(s, StartProtocolWrite(config, s, now, answer.scheduled));
      case Reading =>
        ReadSources(s, now, answer.scheduled);
        SameIsTraced(s, StartNextRead(s, now, answer.scheduled));
      case Registering =>
        SubscriptionSources(s, now, answer.scheduled);
        SameIsTraced(s, StartNextSubscription(s, now, answer.scheduled));
      case WaitingForCccd =>
        WriteSources(s, now, answer.scheduled);
        SameIsTraced(s, WriteCccd(s, now, answer.scheduled));
      case _ =>
    }
  }

  lemma ProtocolWriteSources(config: Config, s: State, now: nat, scheduled: bool)
    requires s.phase == BuildingProfile || s.phase == WritingProtocolMode
    ensures SameSources(s, StartProtocolWrite(config, s, now, scheduled))
  {
    hide StartProtocolWrite;
    ProtocolWriteCases(config, s, now, scheduled);
  }

  lemma StepTraced(config: Config, s: State, event: Event)
    requires Traced(s)
    ensures Traced(Step(config, s, event))
  {
    hide Advance, FinishRead, FinishRegistration, FinishCccdWrite, CheckTimeout, Traced, SameSources;
    match event
    case Connect(now) => NothingTraced(WaitingForDiscovery, now);
    case Disconnect(now) => NothingTraced(Disconnected, now);
    case ReadDone(_, handle, success, value) => ReadTraced(s, handle, success, value);
    case RegistrationDone(now, handle, success) =>
      RegistrationSources(s, handle, success, now);
      SameIsTraced(s, FinishRegistration(s, handle, success, now));
    case CccdWriteDone(now, handle, success, scheduled) =>
      CccdSources(s, handle, success, now, scheduled);
      SameIsTraced(s, FinishCccdWrite(s, handle, success, now, scheduled));
    case Tick(now, later, answer) =>
      var t := Advance(config, s, now, answer);
      AdvanceTraced(config, s, now, answer);
      ReadSources(t, later, false);
      SameIsTraced(t, CheckTimeout(t, later));
    case _ =>
      OtherSources(config, s, event);
      SameIsTraced(s, Step(config, s, event));
  }

  lemma OtherSources(config: Config, s: State, event: Event)
    requires event.DiscoveryComplete? || event.Congestion?
    ensures SameSources(s, Step(config, s, event))
  {
  }

  lemma NothingTraced(phase: Phase, now: nat)
    ensures Traced(Fresh(phase, now))
  {
  }

  lemma {:induction false} RunTraced(config: Config, events: seq<Event>, n: nat)
    requires n <= |events|
    ensures Traced(Run(config, events, n))
  {
    hide Step, Traced;
    if n == 0 {
      NothingTraced(Disconnected, 0);
    } else {
      RunTraced(config, events, n - 1);
      StepTraced(config, Run(config, events, n - 1), events[n - 1]);
    }
  }

  /** If setup ends READY, then every planned required read was answered by a report map that
      compiled, and every service has the map that was read for it last; every HID Report
      characteristic has a report reference, and every reference in a HID service with a map names a
      report that the map defines; and every planned required subscription was confirmed. */
  lemma ReadyIsHonest(config: Config, events: seq<Event>, n: nat)
    requires n <= |events| && ExpectedRun(config, events) && Run(config, events, n).phase == Ready
    ensures var s := Run(config, events, n);
      var readPlan, subscriptions := PlanReads(config, s.services, |s.services|),
        PlanSubscriptions(config, s.services, |s.services|);
      && !readPlan.overflow && !subscriptions.overflow
      && (forall op | op in readPlan.ops && op.required :: Finished(s, op))
      && MapsRead(s.contexts, s.history.doneReads)
      && (forall i | 0 <= i < |s.services| :: ReferencesDefined(s.sources, s.contexts, s.services, i))
      && (forall sub | sub in subscriptions.list && sub.required :: sub in s.history.doneSubscriptions)
  {
    hide PlanReads, PlanSubscriptions, Finished, ReferencesOk, Run, Expected, ExpectedRun, TypesKnown,
      ReferencesDefined, MapsRead, MapsAccepted;
    RunHonest(config, events, n);
    RunOrderly(config, events, n);
    RunTraced(config, events, n);
    var s := Run(config, events, n);
    forall op | op in s.history.plannedReads && op.required
      ensures Finished(s, op)
    {
      assert ReadKept(s, op);
    }
    forall i | 0 <= i < |s.services|
      ensures ReferencesDefined(s.sources, s.contexts, s.services, i)
    {
      KnownTypesDefine(s.sources, s.contexts, s.services, i);
    }
    forall sub | sub in s.history.plannedSubscriptions && sub.required
      ensures sub in s.history.doneSubscriptions
    {
      assert SubscriptionKept(s, sub);
    }
  }
}
