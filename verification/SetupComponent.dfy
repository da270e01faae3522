/** The setup half of BLEClientHID: the object whose loop and callbacks perform the steps of the
    setup protocol. Every method is tied to the step function of Setup on the object's view. */
module SetupComponent {
  import opened Integers
  import opened HidSchema
  import HidCompiler
  import HidReportMap
  import opened HidDecoder
  import S = Subscription
  import P = SetupPlan
  import opened Setup

  class BLEClientHID {
    const config: P.Config
    const subscriptionState: S.SubscriptionAttemptState
    var setupPhase: Phase
    var phaseStartedMs: uint32
    var degraded: bool
    var congested: bool
    var services: P.Services
    var hidServices: P.Contexts
    var handleReportSource: map<uint16, Source>
    var hidReportHandles: set<uint16>
    var readQueue: seq<P.ReadOp>
    var plannedReadHandles: set<uint16>
    var activeRead: Option<P.ReadOp>
    var protocolWriteHandles: seq<uint16>
    var subscriptionQueue: seq<P.Subscription>
    var activeSubscription: Option<P.Subscription>

    /** Real time of the phase start, of which the object keeps the 32-bit reading. */
    ghost var phaseStarted: nat
    ghost var history: History

    ghost predicate Valid()
      reads this
    {
      phaseStartedMs == Wrapped(phaseStarted)
    }

    ghost function View(): State
      reads this, subscriptionState
    {
      State(setupPhase, phaseStarted, degraded, congested, services, hidServices, handleReportSource, hidReportHandles,
            readQueue, activeRead, protocolWriteHandles, subscriptionQueue, activeSubscription,
            subscriptionState.Snapshot(), history)
    }

    constructor (config: P.Config)
      ensures Valid() && this.config == config && View() == Fresh(Disconnected, 0) && fresh(subscriptionState)
    {
      this.config := config;
      subscriptionState := new S.SubscriptionAttemptState();
      setupPhase, phaseStartedMs, degraded, congested := Disconnected, 0, false, false;
      services, hidServices, handleReportSource, hidReportHandles := [], map[], map[], {};
      readQueue, plannedReadHandles, activeRead, protocolWriteHandles := [], {}, None, [];
      subscriptionQueue, activeSubscription := [], None;
      phaseStarted, history := 0, NO_HISTORY;
    }

    method TransitionTo(phase: Phase, now: nat)
      modifies `setupPhase, `phaseStartedMs, `phaseStarted
      ensures Valid() && View() == Transition(old(View()), phase, now)
    {
      setupPhase := phase;
      phaseStartedMs := Wrapped(now);
      phaseStarted := now;
    }

    method ClearWork()
      modifies `readQueue, `plannedReadHandles, `activeRead, `protocolWriteHandles, `subscriptionQueue,
        `activeSubscription
      ensures View() == old(View()).(
        readQueue := [], activeRead := None, protocolWrites := [], subscriptionQueue := [], activeSubscription := None)
    {
      readQueue, plannedReadHandles, activeRead, protocolWriteHandles := [], {}, None, [];
      subscriptionQueue, activeSubscription := [], None;
    }

    method ClearDatabase()
      modifies `services, `hidServices, `handleReportSource, `hidReportHandles
      ensures View() == old(View()).(services := [], contexts := map[], sources := map[], reportHandles := {})
    {
      services, hidServices, handleReportSource, hidReportHandles := [], map[], map[], {};
    }

    /** `reset_connection_state_`, followed by the transition of its callers. */
    method ResetConnectionState(phase: Phase, now: nat)
      modifies this, subscriptionState
      ensures Valid() && View() == Fresh(phase, now)
    {
      hide Transition;
      subscriptionState.Reset();
      ClearWork();
      ClearDatabase();
      congested, degraded, history := false, false, NO_HISTORY;
      setupPhase, phaseStartedMs, phaseStarted := phase, Wrapped(now), now;
    }

    method FinalizeSetup(now: nat)
      modifies `setupPhase, `phaseStartedMs, `phaseStarted
      ensures Valid() && View() == Finalize(old(View()), now)
    {
      TransitionTo(if degraded then Degraded else Ready, now);
    }

    // ---------- reads ----------

    /** The queue, the planned handles and the warning that `plan` stands for. */
    ghost predicate Holds(plan: P.ReadPlan, was: bool)
      reads `readQueue, `plannedReadHandles, `degraded
    {
      readQueue == plan.ops && plannedReadHandles == plan.handles && degraded == (was || plan.overflow)
    }

    method AddRead(op: P.ReadOp, ghost plan: P.ReadPlan, ghost was: bool)
      requires Holds(plan, was)
      modifies `readQueue, `plannedReadHandles, `degraded
      ensures Holds(P.AddRead(plan, op), was)
    {
      if op.handle in plannedReadHandles { return; }
      if |readQueue| >= P.MAX_READ_OPERATIONS {
        degraded := true;
        return;
      }
      readQueue := readQueue + [op];
      plannedReadHandles := plannedReadHandles + {op.handle};
    }

    method PlanCharacteristic(service: uint16, instance: uint16, c: P.Characteristic, ghost plan: P.ReadPlan,
                              ghost was: bool)
      requires Holds(plan, was)
      modifies `readQueue, `plannedReadHandles, `degraded
      ensures Holds(P.PlanCharacteristic(config, service, instance, c, plan), was)
    {
      hide P.StandardPurpose, P.DescriptorPurpose, P.AddRead, Holds;
      var purpose := P.StandardPurpose(service, c.uuid);
      ghost var own := plan;
      if c.canRead && (purpose.Some? || config.forensic) {
        var op := P.ReadOp(c.handle, c.handle, instance, P.OrGeneric(purpose), purpose == Some(P.ReportMap));
        AddRead(op, plan, was);
        own := P.AddRead(plan, op);
      }
      for k := 0 to |c.descriptors|
        invariant Holds(P.PlanDescriptors(config, instance, c, own, k), was)
      {
        var d := c.descriptors[k];
        var descriptorPurpose := P.DescriptorPurpose(d.uuid);
        if descriptorPurpose.Some? || config.forensic {
          AddRead(P.ReadOp(d.handle, c.handle, instance, P.OrGeneric(descriptorPurpose), false),
                  P.PlanDescriptors(config, instance, c, own, k), was);
        }
      }
    }

    method PlanReads()
      modifies `readQueue, `plannedReadHandles, `degraded
      ensures Holds(P.PlanReads(config, services, |services|), old(degraded))
    {
      hide P.PlanCharacteristic, Holds;
      ghost var was := degraded;
      readQueue := [];
      plannedReadHandles := {};
      assert Holds(P.PlanReads(config, services, 0), was) by { NothingPlanned(was); }
      for i := 0 to |services|
        invariant Holds(P.PlanReads(config, services, i), was)
      {
        var service := services[i];
        ghost var before := P.PlanReads(config, services, i);
        for k := 0 to |service.characteristics|
          invariant Holds(P.PlanService(config, service, i, before, k), was)
        {
          PlanCharacteristic(service.uuid, i, service.characteristics[k], P.PlanService(config, service, i, before, k),
                             was);
        }
      }
    }

    lemma NothingPlanned(was: bool)
      requires readQueue == [] && plannedReadHandles == {} && degraded == was
      ensures Holds(P.NO_READS, was)
    {
    }

    method StartNextRead(now: nat, scheduled: bool)
      requires Valid()
      modifies `readQueue, `activeRead, `degraded, `history, `setupPhase, `phaseStartedMs, `phaseStarted
      ensures Valid() && View() == Setup.StartNextRead(old(View()), now, scheduled)
    {
      if activeRead.Some? || congested { return; }
      if readQueue == [] {
        TransitionTo(BuildingProfile, now);
        return;
      }
      activeRead := Some(readQueue[0]);
      readQueue := readQueue[1..];
      history := history.(triedReads := history.triedReads + [activeRead.value]);
      if !scheduled {
        degraded := degraded || activeRead.value.required;
        activeRead := None;
      }
    }

    method ProcessReportReference(op: P.ReadOp, bytes: seq<uint8>)
      modifies `handleReportSource, `degraded
      ensures View() == Setup.ProcessReportReference(old(View()), op, bytes)
    {
      var source := P.SourceOf(handleReportSource, op.characteristicHandle)
                      .(serviceInstance := op.service, handle := op.characteristicHandle, uuid := HID_REPORT);
      if |bytes| == 2 {
        source := source.(reportId := bytes[0], hasReportId := true, reportType := bytes[1], hasReportType := true);
        degraded := degraded || bytes[1] < 1 || bytes[1] > 3;
      } else {
        degraded := true;
      }
      handleReportSource := handleReportSource[op.characteristicHandle := source];
    }

    method ProcessReportMap(op: P.ReadOp, bytes: seq<uint8>)
      requires op.purpose == P.ReportMap
      modifies `hidServices, `degraded
      ensures View() == ProcessReadValue(old(View()), op, bytes)
    {
      hide HidCompiler.Compile;
      if op.service !in hidServices || |bytes| == 0 {
        degraded := true;
        return;
      }
      var parsed := HidReportMap.HIDReportMap.ParseReportMapData(Bytes(bytes));
      var reportMap := if parsed == null then None else Some(parsed.Layout());
      hidServices := hidServices[op.service := hidServices[op.service].(reportMap := reportMap)];
      if reportMap.None? { degraded := true; }
    }

    method ProcessValue(op: P.ReadOp, bytes: seq<uint8>)
      modifies `hidServices, `handleReportSource, `degraded
      ensures View() == ProcessReadValue(old(View()), op, bytes)
    {
      hide HidCompiler.Compile;
      match op.purpose {
        case Information =>
          if op.service !in hidServices || |bytes| != 4 { degraded := true; }
        case ProtocolMode =>
          if op.service in hidServices && |bytes| == 1 {
            var context := hidServices[op.service].(protocolModeHandle := op.characteristicHandle);
            hidServices := hidServices[op.service := context];
          } else {
            degraded := true;
          }
        case ReportMap => ProcessReportMap(op, bytes);
        case ReportReference => ProcessReportReference(op, bytes);
        case _ =>
          degraded := degraded || !LengthFits(op.purpose, |bytes|);
      }
    }

    method FinishActiveRead(handle: uint16, success: bool, value: Buffer)
      modifies `activeRead, `hidServices, `handleReportSource, `degraded, `history
      ensures View() == FinishRead(old(View()), handle, success, value)
    {
      hide ProcessReadValue;
      if activeRead.None? || activeRead.value.handle != handle { return; }
      var op := activeRead.value;
      activeRead := None;
      var length := if value.Null? then value.length else |value.bytes|;
      if !success || length > MAX_ATTRIBUTE_VALUE_BYTES || (value.Null? && value.length != 0) {
        degraded := degraded || op.required;
        return;
      }
      var bytes := if value.Null? then [] else value.bytes;
      AcceptValue(op, bytes);
    }

    method AcceptValue(op: P.ReadOp, bytes: seq<uint8>)
      modifies `hidServices, `handleReportSource, `degraded, `history
      ensures var s := old(View());
        View() == ProcessReadValue(s, op, bytes).(
          history := s.history.(doneReads := s.history.doneReads + [DoneRead(op, bytes)]))
    {
      hide ProcessReadValue;
      ProcessValue(op, bytes);
      history := history.(doneReads := history.doneReads + [DoneRead(op, bytes)]);
    }

    // ---------- profile and protocol mode ----------

    ghost function CurrentProfile(): P.Profile
      reads `handleReportSource, `hidServices, `hidReportHandles, `degraded
    {
      P.Profile(handleReportSource, hidServices, hidReportHandles, degraded)
    }

    method BuildCharacteristic(instance: uint16, c: P.Characteristic)
      modifies `handleReportSource, `hidServices, `hidReportHandles, `degraded
      ensures CurrentProfile() == P.BuildCharacteristic(old(CurrentProfile()), instance, c)
    {
      if P.IsReportCharacteristic(c.uuid) {
        hidReportHandles := hidReportHandles + {c.handle};
        var source := P.SourceOf(handleReportSource, c.handle).(serviceInstance := instance, handle := c.handle,
                                                                uuid := c.uuid);
        if c.uuid != HID_REPORT {
          source := source.(reportType := 1, hasReportType := true);
        } else if !source.hasReportId {
          degraded := true;
        }
        handleReportSource := handleReportSource[c.handle := source];
      }
      if c.uuid == P.HID_PROTOCOL_MODE && instance in hidServices {
        hidServices := hidServices[instance := hidServices[instance].(protocolModeHandle := c.handle)];
      }
    }

    /** Looks at every known report source; their order does not matter. */
    method CheckReferences(instance: uint16, reportMap: Schema)
      modifies `degraded
      ensures degraded == (old(degraded) || P.AnyDangling(handleReportSource, instance, reportMap))
    {
      hide P.Dangling;
      var rest := handleReportSource.Keys;
      while rest != {}
        invariant rest <= handleReportSource.Keys
        invariant degraded == (old(degraded) || exists h | h in handleReportSource ::
                                 h !in rest && P.Dangling(handleReportSource[h], instance, reportMap))
        decreases |rest|
      {
        var h :| h in rest;
        if P.Dangling(handleReportSource[h], instance, reportMap) { degraded := true; }
        rest := rest - {h};
      }
    }

    method BuildHidProfiles()
      modifies `handleReportSource, `hidServices, `hidReportHandles, `degraded
      ensures View() == BuildProfile(old(View()))
    {
      hide P.BuildCharacteristic, P.AnyDangling;
      ghost var start := CurrentProfile();
      for i := 0 to |services|
        invariant CurrentProfile() == P.BuildProfiles(start, services, i)
      {
        var service := services[i];
        ghost var before := CurrentProfile();
        if service.uuid == P.HID_SERVICE {
          for k := 0 to |service.characteristics|
            invariant CurrentProfile() == P.BuildCharacteristics(before, service, i, k)
          {
            BuildCharacteristic(i, service.characteristics[k]);
          }
          if i in hidServices && hidServices[i].reportMap.Some? {
            CheckReferences(i, hidServices[i].reportMap.value);
          }
        }
      }
    }

    method BeginRegistering(now: nat)
      modifies `subscriptionQueue, `history, `degraded, `setupPhase, `phaseStartedMs, `phaseStarted
      ensures Valid()
      ensures View() == StartRegistering(config, old(View()), now)
    {
      hide P.PlanSubscriptions;
      PlanSubscriptions();
      TransitionTo(Registering, now);
    }

    method StartProtocolModeWrite(now: nat, scheduled: bool)
      requires Valid()
      modifies `protocolWriteHandles, `subscriptionQueue, `history, `degraded, `setupPhase, `phaseStartedMs,
        `phaseStarted
      ensures Valid() && View() == StartProtocolWrite(config, old(View()), now, scheduled)
    {
      hide StartRegistering, TakeWrite, ProtocolHandles;
      if setupPhase == BuildingProfile {
        CollectProtocolHandles();
        TransitionTo(WritingProtocolMode, now);
      }
      if protocolWriteHandles == [] {
        BeginRegistering(now);
        return;
      }
      WriteProtocolMode(scheduled);
    }

    method WriteProtocolMode(scheduled: bool)
      requires protocolWriteHandles != []
      modifies `protocolWriteHandles, `history, `degraded
      ensures View() == TakeWrite(config, old(View()), scheduled)
    {
      var handle, value := protocolWriteHandles[0], if config.policy == P.BootMode then 0 else 1;
      protocolWriteHandles := protocolWriteHandles[1..];
      history := history.(modeWrites := history.modeWrites + [Write(handle, value)]);
      if !scheduled { degraded := true; }
    }

    method CollectProtocolHandles()
      modifies `protocolWriteHandles
      ensures protocolWriteHandles
        == (if config.policy == P.Unchanged then [] else ProtocolHandles(hidServices, |services|))
    {
      protocolWriteHandles := [];
      if config.policy == P.Unchanged { return; }
      for i := 0 to |services|
        invariant protocolWriteHandles == ProtocolHandles(hidServices, i)
      {
        if i in hidServices && hidServices[i].protocolModeHandle != 0 {
          protocolWriteHandles := protocolWriteHandles + [hidServices[i].protocolModeHandle];
        }
      }
    }

    // ---------- subscriptions ----------

    method FindCccd(c: P.Characteristic) returns (handle: uint16)
      ensures handle == P.CccdHandle(c.descriptors)
    {
      for i := 0 to |c.descriptors|
        invariant P.CccdHandle(c.descriptors) == P.CccdHandle(c.descriptors, i)
      {
        if c.descriptors[i].uuid == P.CCCD { return c.descriptors[i].handle; }
      }
      handle := 0;
    }

    ghost predicate Lists(plan: P.SubscriptionPlan, was: bool)
      reads `subscriptionQueue, `degraded
    {
      subscriptionQueue == plan.list && degraded == (was || plan.overflow)
    }

    method SubscribeService(service: P.Service, ghost plan: P.SubscriptionPlan, ghost was: bool)
      requires Lists(plan, was)
      modifies `subscriptionQueue, `degraded
      ensures Lists(P.SubscribeService(config, service, plan), was)
    {
      hide P.CccdHandle, P.WantsSubscription;
      ghost var current := plan;
      for i := 0 to |service.characteristics|
        invariant Lists(current, was)
        invariant P.SubscribeService(config, service, plan) == P.SubscribeService(config, service, current, i)
      {
        var c := service.characteristics[i];
        if P.WantsSubscription(config, service.uuid, c) {
          if |subscriptionQueue| >= P.MAX_SUBSCRIPTIONS {
            degraded := true;
            return;
          }
          var required := service.uuid == P.HID_SERVICE && P.IsReportCharacteristic(c.uuid);
          var cccd := FindCccd(c);
          var subscription := P.Subscription(c.handle, cccd, c.canNotify, required);
          subscriptionQueue := subscriptionQueue + [subscription];
          current := current.(list := current.list + [subscription]);
        }
      }
    }

    method PlanSubscriptions()
      modifies `subscriptionQueue, `history, `degraded
      ensures var plan := P.PlanSubscriptions(config, services, |services|);
        && Lists(plan, old(degraded))
        && history == old(history).(plannedSubscriptions := plan.list)
    {
      hide P.SubscribeService;
      subscriptionQueue := [];
      for i := 0 to |services|
        invariant Lists(P.PlanSubscriptions(config, services, i), old(degraded)) && history == old(history)
      {
        SubscribeService(services[i], P.PlanSubscriptions(config, services, i), old(degraded));
      }
      history := history.(plannedSubscriptions := subscriptionQueue);
    }

    method DropActive()
      modifies `activeSubscription, subscriptionState
      ensures View() == DropAttempt(old(View()))
    {
      activeSubscription := None;
      subscriptionState.Reset();
    }

    method FailActive(now: nat)
      requires activeSubscription.Some?
      modifies `degraded, `activeSubscription, subscriptionState, `setupPhase, `phaseStartedMs, `phaseStarted
      ensures Valid() && View() == FailAttempt(old(View()), old(activeSubscription).value, now)
    {
      degraded := degraded || activeSubscription.value.required;
      DropActive();
      TransitionTo(Registering, now);
    }

    method TakeSubscription() returns (subscription: P.Subscription)
      requires subscriptionQueue != []
      modifies `subscriptionQueue, `activeSubscription, `history, subscriptionState
      ensures var s := old(View());
        && subscription == s.subscriptionQueue[0]
        && View() == s.(subscriptionQueue := s.subscriptionQueue[1..], activeSubscription := Some(subscription),
                        attempt := S.Begun(subscription.characteristicHandle, subscription.cccdHandle),
                        history := s.history.(triedSubscriptions := s.history.triedSubscriptions + [subscription]))
    {
      subscription := subscriptionQueue[0];
      activeSubscription := Some(subscription);
      subscriptionQueue := subscriptionQueue[1..];
      history := history.(triedSubscriptions := history.triedSubscriptions + [subscription]);
      subscriptionState.Begin(subscription.characteristicHandle, subscription.cccdHandle);
    }

    method StartNextSubscription(now: nat, scheduled: bool)
      requires Valid()
      modifies `subscriptionQueue, `activeSubscription, `degraded, `history, subscriptionState
      modifies `setupPhase, `phaseStartedMs, `phaseStarted
      ensures Valid() && View() == Setup.StartNextSubscription(old(View()), now, scheduled)
    {
      if activeSubscription.Some? || congested { return; }
      if subscriptionQueue == [] {
        FinalizeSetup(now);
        return;
      }
      var subscription := TakeSubscription();
      if subscription.cccdHandle == 0 || !scheduled {
        degraded := degraded || subscription.required;
        DropActive();
      } else {
        history := history.(ownWrites := 0);
      }
    }

    method HandleRegistrationResult(handle: uint16, success: bool, now: nat)
      requires Valid()
      modifies `activeSubscription, `degraded, subscriptionState, `setupPhase, `phaseStartedMs, `phaseStarted
      ensures Valid() && View() == FinishRegistration(old(View()), handle, success, now)
    {
      hide S.RegistrationDecision, S.Registered;
      var decision := subscriptionState.RegistrationResult(handle, success, Wrapped(now));
      if activeSubscription.None? || decision == S.Unmatched { return; }
      if decision == S.Failed {
        FailActive(now);
        return;
      }
      TransitionTo(WaitingForCccd, now);
    }

    method WriteCurrentCccd(now: nat, scheduled: bool)
      requires Valid()
      modifies `activeSubscription, `degraded, `history, subscriptionState, `setupPhase, `phaseStartedMs, `phaseStarted
      ensures Valid() && View() == WriteCccd(old(View()), now, scheduled)
    {
      if activeSubscription.None? { return; }
      subscriptionState.OwnCccdWriteAttempted();
      var subscription := activeSubscription.value;
      var value := if subscription.canNotify then 1 else 2;
      history := history.(ownWrites := history.ownWrites + 1,
                          cccdWrites := history.cccdWrites + [Write(subscription.cccdHandle, value)]);
      if !scheduled { FailActive(now); }
    }

    method HandleCccdResult(handle: uint16, success: bool, now: nat, scheduled: bool)
      requires Valid()
      modifies `activeSubscription, `degraded, `history, subscriptionState, `setupPhase, `phaseStartedMs, `phaseStarted
      ensures Valid() && View() == FinishCccdWrite(old(View()), handle, success, now, scheduled)
    {
      hide S.CccdDecision, S.CccdWritten, WriteCccd;
      var decision := subscriptionState.CccdResult(handle, success);
      if activeSubscription.None? || decision == S.Unmatched { return; }
      if decision == S.Complete {
        history := history.(doneSubscriptions := history.doneSubscriptions + [activeSubscription.value]);
        DropActive();
        TransitionTo(Registering, now);
      } else if decision == S.RetryCccd {
        WriteCurrentCccd(now, scheduled);
      } else {
        FailActive(now);
      }
    }

    // ---------- loop and callbacks ----------

    /** `inventory_gatt_database_`, as far as setup depends on it. */
    method TakeDatabase(answer: Answer)
      modifies `services, `hidServices, `degraded
      ensures View() == old(View()).(
        services := answer.services, contexts := HidContexts(answer.services),
        degraded := old(degraded) || answer.limited || |answer.services| >= P.MAX_SERVICES)
    {
      services := answer.services;
      hidServices := HidContexts(services);
      degraded := degraded || answer.limited || |services| >= P.MAX_SERVICES;
    }

    method BeginReading(now: nat)
      modifies `readQueue, `plannedReadHandles, `degraded, `history, `setupPhase, `phaseStartedMs, `phaseStarted
      ensures Valid()
      ensures var s, plan := old(View()), P.PlanReads(config, services, |services|);
        View() == Transition(DegradedIf(s.(readQueue := plan.ops, history := NO_HISTORY.(plannedReads := plan.ops)),
                                        plan.overflow), Reading, now)
    {
      hide P.PlanReads;
      PlanReads();
      history := NO_HISTORY.(plannedReads := readQueue);
      TransitionTo(Reading, now);
    }

    method Inventory(now: nat, answer: Answer)
      requires Valid()
      modifies this
      ensures Valid() && View() == TakeInventory(config, old(View()), now, answer)
    {
      hide P.PlanReads, HidContexts;
      TakeDatabase(answer);
      if !answer.complete || services == [] {
        degraded := true;
        FinalizeSetup(now);
      } else if hidServices == map[] {
        TransitionTo(NoHid, now);
      } else {
        BeginReading(now);
      }
    }

    method RunPhase(now: nat, answer: Answer)
      requires Valid()
      modifies this, subscriptionState
      ensures Valid() && View() == Advance(config, old(View()), now, answer)
    {
      hide TakeInventory, Setup.StartNextRead, BuildProfile, StartProtocolWrite, Setup.StartNextSubscription, WriteCccd,
        S.FallbackDue;
      match setupPhase {
        case Inventory => Inventory(now, answer);
        case Reading => StartNextRead(now, answer.scheduled);
        case BuildingProfile =>
          BuildHidProfiles();
          StartProtocolModeWrite(now, answer.scheduled);
        case WritingProtocolMode => StartProtocolModeWrite(now, answer.scheduled);
        case Registering => StartNextSubscription(now, answer.scheduled);
        case WaitingForCccd =>
          var due := subscriptionState.FallbackDueAt(Wrapped(now));
          if activeSubscription.Some? && due { WriteCurrentCccd(now, answer.scheduled); }
        case _ =>
      }
    }

    method HandlePhaseTimeout(now: nat)
      requires Valid()
      modifies `activeRead, `readQueue, `activeSubscription, `subscriptionQueue, `degraded, subscriptionState
      modifies `setupPhase, `phaseStartedMs, `phaseStarted
      ensures Valid() && View() == CheckTimeout(old(View()), now)
    {
      if !IsBusy(setupPhase) || !Elapsed(Wrapped(now), phaseStartedMs, PHASE_TIMEOUT_MS) { return; }
      degraded := true;
      if setupPhase == Reading {
        activeRead, readQueue := None, [];
        TransitionTo(BuildingProfile, now);
      } else if setupPhase == Registering || setupPhase == WaitingForCccd {
        AbandonSubscriptions();
        FinalizeSetup(now);
      } else {
        FinalizeSetup(now);
      }
    }

    method AbandonSubscriptions()
      modifies `activeSubscription, `subscriptionQueue, subscriptionState
      ensures View() == DropAttempt(old(View())).(subscriptionQueue := [])
    {
      DropActive();
      subscriptionQueue := [];
    }

    /** The loop (its setup part) and the GATT callbacks: each performs the step of its event. */
    method Handle(event: Event)
      requires Valid()
      modifies this, subscriptionState
      ensures Valid() && View() == Step(config, old(View()), event)
    {
      hide Advance, CheckTimeout, FinishRead, FinishRegistration, FinishCccdWrite;
      match event {
        case Connect(now) => ResetConnectionState(WaitingForDiscovery, now);
        case Disconnect(now) => ResetConnectionState(Disconnected, now);
        case DiscoveryComplete(now, success) =>
          if success {
            TransitionTo(Phase.Inventory, now);
          } else {
            degraded := true;
            FinalizeSetup(now);
          }
        case ReadDone(_, handle, success, value) => FinishActiveRead(handle, success, value);
        case RegistrationDone(now, handle, success) => HandleRegistrationResult(handle, success, now);
        case CccdWriteDone(now, handle, success, scheduled) => HandleCccdResult(handle, success, now, scheduled);
        case Congestion(_, isCongested) => congested := isCongested;
        case Tick(now, later, answer) =>
          RunPhase(now, answer);
          HandlePhaseTimeout(later);
      }
    }
  }
}
