/** What connection setup stands on, over whole runs: its services are those of the last inventory, its
    contexts are those of the HID services, and what remains to be read stems from the plan. */
module SetupGrounds {
  import opened Integers
  import HidCompiler
  import S = Subscription
  import opened SetupPlan
  import opened Setup
  import opened SetupProofs
  import opened SetupDatabase
  import F = SetupFallback

  predicate Resets(event: Event) { event.Connect? || event.Disconnect? }

  // ---------- what events leave in the state ----------

  /** The services that the last inventory of the connection delivered. */
  function Inventoried(config: Config, events: seq<Event>, n: nat): Services
    requires n <= |events|
  {
    if n == 0 || Resets(events[n - 1]) then []
    else if events[n - 1].Tick? && Run(config, events, n - 1).phase == Inventory then events[n - 1].answer.services
    else Inventoried(config, events, n - 1)
  }

  /** Whether the stack last reported congestion. */
  predicate Congested(events: seq<Event>, n: nat)
    requires n <= |events|
  {
    if n == 0 || Resets(events[n - 1]) then false
    else if events[n - 1].Congestion? then events[n - 1].congested
    else Congested(events, n - 1)
  }

  ghost predicate SameDatabase(s: State, t: State) {
    t.services == s.services && t.congested == s.congested
  }

  /** The step leaves the database and the contexts alone, and adds no read. */
  ghost predicate Carries(s: State, t: State) {
    && SameDatabase(s, t) && t.contexts == s.contexts
    && (forall op | op in t.readQueue :: op in s.readQueue)
    && (t.activeRead.Some? ==> t.activeRead == s.activeRead || t.activeRead.value in s.readQueue)
  }

  lemma InventoryDatabase(config: Config, s: State, now: nat, answer: Answer)
    ensures var t := TakeInventory(config, s, now, answer); t.services == answer.services && t.congested == s.congested
  {
    hide PlanReads, HidContexts;
  }

  lemma LoopDatabase(config: Config, s: State, now: nat, scheduled: bool)
    ensures Carries(s, StartNextRead(s, now, scheduled)) && SameDatabase(s, BuildProfile(s))
    ensures Carries(s, StartProtocolWrite(config, s, now, scheduled))
  {
    hide BuildProfiles, StartProtocolWrite;
    WriteDatabase(config, s, now, scheduled);
  }

  lemma RegisteringDatabase(config: Config, s: State, now: nat)
    ensures Carries(s, PlanWrites(config, s, now)) && Carries(s, StartRegistering(config, s, now))
  {
    hide PlanSubscriptions, ProtocolHandles;
  }

  lemma TakeWriteDatabase(config: Config, s: State, scheduled: bool)
    requires s.protocolWrites != []
    ensures Carries(s, TakeWrite(config, s, scheduled))
  {
  }

  lemma WriteDatabase(config: Config, s: State, now: nat, scheduled: bool)
    ensures Carries(s, StartProtocolWrite(config, s, now, scheduled))
  {
    hide PlanWrites, StartRegistering, TakeWrite;
    var t := PlanWrites(config, s, now);
    RegisteringDatabase(config, s, now);
    RegisteringDatabase(config, t, now);
    if t.protocolWrites != [] {
      TakeWriteDatabase(config, t, scheduled);
    }
  }

  lemma AttemptDatabase(s: State, sub: Subscription, now: nat)
    ensures Carries(s, FailAttempt(s, sub, now)) && Carries(s, CompleteAttempt(s, sub, now))
  {
  }

  lemma StartDatabase(s: State, now: nat, scheduled: bool)
    ensures Carries(s, StartNextSubscription(s, now, scheduled))
  {
  }

  lemma SubscriptionDatabase(s: State, now: nat, scheduled: bool)
    ensures Carries(s, StartNextSubscription(s, now, scheduled)) && Carries(s, WriteCccd(s, now, scheduled))
  {
    hide StartNextSubscription, FailAttempt;
    StartDatabase(s, now, scheduled);
    if s.activeSubscription.Some? {
      var sub := s.activeSubscription.value;
      AttemptDatabase(s.(attempt := s.attempt.(ownWriteAttempted := true), history := CountWrite(s.history, sub)), sub,
                      now);
    }
  }

  lemma AdvanceDatabase(config: Config, s: State, now: nat, answer: Answer)
    ensures var t := Advance(config, s, now, answer);
      && t.services == (if s.phase == Inventory then answer.services else s.services)
      && t.congested == s.congested
  {
    hide TakeInventory, StartNextRead, BuildProfile, StartProtocolWrite, StartNextSubscription, WriteCccd,
      S.FallbackDue;
    InventoryDatabase(config, s, now, answer);
    LoopDatabase(config, s, now, answer.scheduled);
    LoopDatabase(config, BuildProfile(s), now, answer.scheduled);
    SubscriptionDatabase(s, now, answer.scheduled);
  }

  lemma ReadDatabase(s: State, handle: uint16, success: bool, value: Buffer)
    ensures SameDatabase(s, FinishRead(s, handle, success, value))
  {
    hide ProcessReadValue;
    if s.activeRead.Some? {
      ProcessFrame(s.(activeRead := None), s.activeRead.value, if value.Null? then [] else value.bytes);
    }
  }

  lemma RegistrationDatabase(s: State, handle: uint16, success: bool, now: nat)
    ensures Carries(s, FinishRegistration(s, handle, success, now))
  {
    hide S.RegistrationDecision, S.Registered, FailAttempt;
    if s.activeSubscription.Some? {
      AttemptDatabase(s.(attempt := S.Registered(s.attempt, handle, success, Wrapped(now))), s.activeSubscription.value,
                      now);
    }
  }

  lemma CccdDatabase(s: State, handle: uint16, success: bool, now: nat, scheduled: bool)
    ensures Carries(s, FinishCccdWrite(s, handle, success, now, scheduled))
  {
    hide S.CccdDecision, S.CccdWritten, WriteCccd, FailAttempt, CompleteAttempt;
    var t := s.(attempt := S.CccdWritten(s.attempt, handle, success));
    SubscriptionDatabase(t, now, scheduled);
    if s.activeSubscription.Some? {
      AttemptDatabase(t, s.activeSubscription.value, now);
    }
  }

  lemma TimeoutDatabase(s: State, now: nat)
    ensures Carries(s, CheckTimeout(s, now))
  {
    hide TimedOut;
  }

  lemma StepDatabase(config: Config, s: State, event: Event)
    ensures var t := Step(config, s, event);
      && t.services == (if Resets(event) then []
                        else if event.Tick? && s.phase == Inventory then event.answer.services else s.services)
      && t.congested == (if Resets(event) then false
                         else if event.Congestion? then event.congested else s.congested)
  {
    hide Advance, FinishRead, FinishRegistration, FinishCccdWrite, CheckTimeout;
    match event
    case Tick(now, later, answer) =>
      AdvanceDatabase(config, s, now, answer);
      TimeoutDatabase(Advance(config, s, now, answer), later);
    case ReadDone(_, handle, success, value) => ReadDatabase(s, handle, success, value);
    case RegistrationDone(now, handle, success) => RegistrationDatabase(s, handle, success, now);
    case CccdWriteDone(now, handle, success, scheduled) => CccdDatabase(s, handle, success, now, scheduled);
    case _ =>
  }

  /** The database is the one of the last inventory, and congestion is what the stack last said. */
  lemma {:induction false} RunDatabase(config: Config, events: seq<Event>, n: nat)
    requires n <= |events|
    ensures Run(config, events, n).services == Inventoried(config, events, n)
    ensures Run(config, events, n).congested <==> Congested(events, n)
  {
    hide Step;
    if n > 0 {
      RunDatabase(config, events, n - 1);
      StepDatabase(config, Run(config, events, n - 1), events[n - 1]);
    }
  }

  /** A connection and a disconnection forget everything; the one awaits discovery, the other a connection. */
  lemma ResetsForget(config: Config, s: State, event: Event)
    requires Resets(event)
    ensures var t := Step(config, s, event);
      && t.phase == (if event.Connect? then WaitingForDiscovery else Disconnected) && t.phaseStarted == event.now
      && !t.degraded && !t.congested && NoWorkLeft(t) && t.protocolWrites == []
      && t.services == [] && t.contexts == map[] && t.sources == map[] && t.reportHandles == {}
  {
  }

  /** Discovery leads to the inventory, or ends setup. */
  lemma DiscoveryLeads(config: Config, s: State, now: nat, success: bool)
    ensures Step(config, s, DiscoveryComplete(now, success)).phase == if success then Inventory else Degraded
    ensures Step(config, s, DiscoveryComplete(now, success)).phaseStarted == now
  {
  }

  // ---------- contexts and the database ----------

  ghost predicate HasMode(service: Service) {
    exists k | 0 <= k < |service.characteristics| :: service.characteristics[k].uuid == 0x2A4E
  }

  /** Exactly the HID services have contexts, and only those with a Protocol Mode characteristic know a
      handle for it. */
  ghost predicate ContextsOk(contexts: Contexts, services: Services) {
    && (forall i: uint16 :: i in contexts <==> 0 <= i < |services| && services[i].uuid == 0x1812)
    && (forall i | i in contexts && contexts[i].protocolModeHandle != 0 :: HasMode(services[i]))
  }

  ghost predicate ReadsMode(services: Services, op: ReadOp) {
    op.purpose == ProtocolMode ==> 0 <= op.service < |services| && HasMode(services[op.service])
  }

  ghost predicate AllReadModes(services: Services, ops: seq<ReadOp>) {
    forall op | op in ops :: ReadsMode(services, op)
  }

  /** The contexts, and the reads that are still to fill them, stem from the database. */
  ghost predicate Grounded(s: State) {
    && ContextsOk(s.contexts, s.services) && AllReadModes(s.services, s.readQueue)
    && (s.activeRead.Some? ==> ReadsMode(s.services, s.activeRead.value))
  }

  lemma {:induction false} DescriptorsReadNoMode(config: Config, services: Services, instance: uint16,
                                                c: Characteristic, n: nat)
    requires n <= |c.descriptors|
    ensures AllReadModes(services, DescriptorReads(config, instance, c, n))
  {
    hide ReadsMode;
    if n > 0 {
      DescriptorsReadNoMode(config, services, instance, c, n - 1);
      var d := c.descriptors[n - 1];
      DescriptorPurposesAre(d.uuid);
      NoMode(services, ReadOp(d.handle, c.handle, instance, OrGeneric(DescriptorPurpose(d.uuid)), false));
    }
  }

  lemma NoMode(services: Services, op: ReadOp)
    requires op.purpose != ProtocolMode
    ensures ReadsMode(services, op)
  {
  }

  lemma {:induction false} ServiceReadsModes(config: Config, services: Services, i: nat, n: nat)
    requires i < |services| && n <= |services[i].characteristics|
    ensures AllReadModes(services, ServiceReads(config, services[i], i, n))
  {
    hide DescriptorReads, StandardPurpose, HasMode;
    if n > 0 {
      var c := services[i].characteristics[n - 1];
      ServiceReadsModes(config, services, i, n - 1);
      DescriptorsReadNoMode(config, services, i, c, |c.descriptors|);
      PurposesAre(services[i].uuid, c.uuid);
      if c.uuid == 0x2A4E {
        HasThisMode(services[i], n - 1);
      }
    }
  }

  lemma HasThisMode(service: Service, k: nat)
    requires k < |service.characteristics| && service.characteristics[k].uuid == 0x2A4E
    ensures HasMode(service)
  {
  }

  lemma {:induction false} AllReadsModes(config: Config, services: Services, n: nat)
    requires n <= |services|
    ensures AllReadModes(services, AllReads(config, services, n))
  {
    hide ServiceReads, ReadsMode;
    if n > 0 {
      AllReadsModes(config, services, n - 1);
      ServiceReadsModes(config, services, n - 1, |services[n - 1].characteristics|);
    }
  }

  lemma {:induction false} DistinctAreReads(ops: seq<ReadOp>, n: nat)
    requires n <= |ops|
    ensures forall op | op in Distinct(ops, n) :: op in ops
  {
    hide HasHandle;
    if n > 0 {
      DistinctAreReads(ops, n - 1);
    }
  }

  lemma PlanReadsModes(config: Config, services: Services)
    ensures AllReadModes(services, PlanReads(config, services, |services|).ops)
  {
    hide PlanReads, AllReads, Distinct, ReadsMode;
    ReadsAreWanted(config, services);
    AllReadsModes(config, services, |services|);
    DistinctAreReads(AllReads(config, services, |services|), |AllReads(config, services, |services|)|);
  }

  lemma FreshContexts(services: Services)
    ensures ContextsOk(HidContexts(services), services)
  {
    hide HasMode;
  }

  lemma InventoryGrounded(config: Config, s: State, now: nat, answer: Answer)
    requires Orderly(s) && s.phase == Inventory
    ensures Grounded(TakeInventory(config, s, now, answer))
  {
    hide PlanReads, HidContexts, ContextsOk, AllReadModes, ReadsMode;
    FreshContexts(answer.services);
    PlanReadsModes(config, answer.services);
    NoReadsAreGrounded(answer.services);
  }

  lemma NoReadsAreGrounded(services: Services)
    ensures AllReadModes(services, [])
  {
  }

  lemma ReadGrounded(s: State, handle: uint16, success: bool, value: Buffer)
    requires Grounded(s)
    ensures Grounded(FinishRead(s, handle, success, value))
  {
    hide ProcessReadValue, ContextsOk, ReadsMode;
    if s.activeRead.Some? {
      var op, bytes := s.activeRead.value, if value.Null? then [] else value.bytes;
      ProcessFrame(s.(activeRead := None), op, bytes);
      ProcessContexts(s.(activeRead := None), op, bytes);
    }
  }

  lemma ProcessContexts(s: State, op: ReadOp, bytes: seq<uint8>)
    requires ContextsOk(s.contexts, s.services) && ReadsMode(s.services, op)
    ensures ContextsOk(ProcessReadValue(s, op, bytes).contexts, s.services)
  {
    hide ContextsOk, LengthFits, ProcessReportReference, HidCompiler.Compile;
    match op.purpose {
      case ReportMap =>
        if op.service in s.contexts {
          ContextChanges(s.contexts, s.services, op,
                         s.contexts[op.service].(reportMap := HidCompiler.Compile(bytes)));
        }
      case ProtocolMode =>
        if op.service in s.contexts {
          ContextChanges(s.contexts, s.services, op,
                         s.contexts[op.service].(protocolModeHandle := op.characteristicHandle));
        }
      case ReportReference => ReferenceFrame(s, op, bytes);
      case _ =>
    }
  }

  lemma ContextChanges(contexts: Contexts, services: Services, op: ReadOp, context: Context)
    requires ContextsOk(contexts, services) && op.service in contexts && ReadsMode(services, op)
    requires op.purpose == ProtocolMode
      || context.protocolModeHandle == contexts[op.service].protocolModeHandle
    ensures ContextsOk(contexts[op.service := context], services)
  {
    hide HasMode;
  }

  /** Building gives a HID service the handle of its last Protocol Mode characteristic, if it has one. */
  lemma {:induction false} CharacteristicsModes(p: Profile, service: Service, instance: uint16, n: nat)
    requires n <= |service.characteristics|
    ensures var q := BuildCharacteristics(p, service, instance, n);
      && q.contexts.Keys == p.contexts.Keys
      && (forall i | i in p.contexts && i != instance :: q.contexts[i] == p.contexts[i])
      && (instance in p.contexts ==>
            q.contexts[instance] == p.contexts[instance].(protocolModeHandle :=
              if exists k | 0 <= k < n :: service.characteristics[k].uuid == 0x2A4E then ModeHandle(service, n)
              else p.contexts[instance].protocolModeHandle))
  {
    if n > 0 {
      CharacteristicsModes(p, service, instance, n - 1);
      CharacteristicMode(BuildCharacteristics(p, service, instance, n - 1), instance, service.characteristics[n - 1]);
    }
  }

  lemma CharacteristicMode(p: Profile, instance: uint16, c: Characteristic)
    ensures BuildCharacteristic(p, instance, c).contexts
      == if c.uuid == 0x2A4E && instance in p.contexts
         then p.contexts[instance := p.contexts[instance].(protocolModeHandle := c.handle)] else p.contexts
  {
    hide SourceOf;
  }

  lemma {:induction false} NoModeHandle(service: Service, n: nat)
    requires n <= |service.characteristics| && !HasMode(service)
    ensures ModeHandle(service, n) == 0
  {
    if n > 0 {
      NoModeHandle(service, n - 1);
    }
  }

  lemma ServiceModes(p: Profile, services: Services, i: nat)
    requires i < |services| && ContextsOk(p.contexts, services) && KnowsModes(p.contexts, services, i)
    ensures var q := BuildService(p, services[i], i);
      ContextsOk(q.contexts, services) && KnowsModes(q.contexts, services, i + 1)
  {
    hide BuildCharacteristics, AnyDangling, ModeHandle;
    CharacteristicsModes(p, services[i], i, |services[i].characteristics|);
    if !HasMode(services[i]) {
      NoModeHandle(services[i], |services[i].characteristics|);
    }
  }

  lemma {:induction false} ProfilesModes(p: Profile, services: Services, n: nat)
    requires n <= |services| && ContextsOk(p.contexts, services)
    ensures var q := BuildProfiles(p, services, n);
      ContextsOk(q.contexts, services) && KnowsModes(q.contexts, services, n)
  {
    hide BuildService, ContextsOk, KnowsModes;
    if n == 0 {
      NoneKnown(p.contexts, services);
    } else {
      ProfilesModes(p, services, n - 1);
      ServiceModes(BuildProfiles(p, services, n - 1), services, n - 1);
    }
  }

  lemma NoneKnown(contexts: Contexts, services: Services)
    ensures KnowsModes(contexts, services, 0)
  {
  }

  lemma CarriesGrounds(s: State, t: State)
    requires Grounded(s) && Carries(s, t)
    ensures Grounded(t)
  {
    hide ContextsOk, ReadsMode;
  }

  lemma BuildGrounded(s: State)
    requires Grounded(s) && Orderly(s) && s.phase == BuildingProfile
    ensures Grounded(BuildProfile(s)) && KnowsModes(BuildProfile(s).contexts, s.services, |s.services|)
  {
    hide BuildProfiles, ContextsOk, KnowsModes, ReadsMode;
    ProfilesModes(Profile(s.sources, s.contexts, s.reportHandles, s.degraded), s.services, |s.services|);
  }

  lemma AdvanceGrounded(config: Config, s: State, now: nat, answer: Answer)
    requires Grounded(s) && Orderly(s)
    ensures Grounded(Advance(config, s, now, answer))
  {
    hide TakeInventory, StartNextRead, BuildProfile, StartProtocolWrite, StartNextSubscription, WriteCccd, Orderly,
      S.FallbackDue, Grounded, Carries;
    match s.phase {
      case Inventory => InventoryGrounded(config, s, now, answer);
      case BuildingProfile =>
        BuildGrounded(s);
        LoopDatabase(config, BuildProfile(s), now, answer.scheduled);
        CarriesGrounds(BuildProfile(s), StartProtocolWrite(config, BuildProfile(s), now, answer.scheduled));
      case Reading =>
        LoopDatabase(config, s, now, answer.scheduled);
        CarriesGrounds(s, StartNextRead(s, now, answer.scheduled));
      case WritingProtocolMode =>
        LoopDatabase(config, s, now, answer.scheduled);
        CarriesGrounds(s, StartProtocolWrite(config, s, now, answer.scheduled));
      case Registering =>
        SubscriptionDatabase(s, now, answer.scheduled);
        CarriesGrounds(s, StartNextSubscription(s, now, answer.scheduled));
      case WaitingForCccd =>
        SubscriptionDatabase(s, now, answer.scheduled);
        CarriesGrounds(s, WriteCccd(s, now, answer.scheduled));
      case _ =>
    }
  }

  lemma StepGrounded(config: Config, s: State, event: Event)
    requires Grounded(s) && Orderly(s)
    ensures Grounded(Step(config, s, event))
  {
    hide Advance, FinishRead, FinishRegistration, FinishCccdWrite, CheckTimeout, Grounded, Orderly, Carries;
    match event
    case ReadDone(_, handle, success, value) => ReadGrounded(s, handle, success, value);
    case RegistrationDone(now, handle, success) =>
      RegistrationDatabase(s, handle, success, now);
      CarriesGrounds(s, FinishRegistration(s, handle, success, now));
    case CccdWriteDone(now, handle, success, scheduled) =>
      CccdDatabase(s, handle, success, now, scheduled);
      CarriesGrounds(s, FinishCccdWrite(s, handle, success, now, scheduled));
    case Tick(now, later, answer) =>
      AdvanceGrounded(config, s, now, answer);
      TimeoutDatabase(Advance(config, s, now, answer), later);
      CarriesGrounds(Advance(config, s, now, answer), CheckTimeout(Advance(config, s, now, answer), later));
    case _ => OtherGrounded(config, s, event);
  }

  lemma OtherGrounded(config: Config, s: State, event: Event)
    requires Grounded(s)
    requires event.Connect? || event.Disconnect? || event.DiscoveryComplete? || event.Congestion?
    ensures Grounded(Step(config, s, event))
  {
    hide Grounded;
    match event
    case Connect(now) => FreshGrounded(WaitingForDiscovery, now);
    case Disconnect(now) => FreshGrounded(Disconnected, now);
    case _ =>
      OtherKeeps(config, s, event);
      SameGrounds(s, Step(config, s, event));
  }

  lemma SameGrounds(s: State, t: State)
    requires t.services == s.services && t.contexts == s.contexts
    requires t.readQueue == s.readQueue && t.activeRead == s.activeRead
    ensures Grounded(t) == Grounded(s)
  {
    hide ContextsOk, AllReadModes, ReadsMode;
  }

  lemma OtherKeeps(config: Config, s: State, event: Event)
    requires event.DiscoveryComplete? || event.Congestion?
    ensures Step(config, s, event).contexts == s.contexts && Step(config, s, event).services == s.services
    ensures Step(config, s, event).readQueue == s.readQueue && Step(config, s, event).activeRead == s.activeRead
  {
  }

  /** In every expected run the contexts are those of the HID services of the last inventory. */
  lemma {:induction false} RunGrounded(config: Config, events: seq<Event>, n: nat)
    requires n <= |events| && ExpectedRun(config, events)
    ensures Grounded(Run(config, events, n))
  {
    hide Step, Orderly, Expected, Grounded;
    if n == 0 {
      FreshGrounded(Disconnected, 0);
    } else {
      RunGrounded(config, events, n - 1);
      RunOrderly(config, events, n - 1);
      StepGrounded(config, Run(config, events, n - 1), events[n - 1]);
    }
  }

  lemma FreshGrounded(phase: Phase, now: nat)
    ensures Grounded(Fresh(phase, now))
  {
  }

  // ---------- the timing of a tick ----------

  /** A first own CCCD write is due from 250 ms into the wait on. */
  predicate OwnWriteDue(s: State, now: nat) {
    && s.phase == WaitingForCccd && s.history.ownWrites == 0
    && (now - (s.phaseStarted + 250)) % 0x1_0000_0000 < 0x8000_0000
  }

  predicate AnyHid(services: Services) {
    exists i | 0 <= i < |services| :: services[i].uuid == 0x1812
  }

  /** Nothing is under way, nothing is queued, and the stack takes requests. */
  predicate ReadsDone(s: State) { s.activeRead.None? && !s.congested && s.readQueue == [] }

  predicate SubscriptionsDone(s: State) { s.activeSubscription.None? && !s.congested && s.subscriptionQueue == [] }

  /** The work of a tick ends setup. */
  predicate Ends(s: State, answer: Answer) {
    match s.phase
    case Inventory => !answer.complete || answer.services == [] || !AnyHid(answer.services)
    case Registering => SubscriptionsDone(s)
    case _ => false
  }

  /** The work of a tick starts a phase. */
  predicate Leaves(s: State, now: nat, answer: Answer) {
    match s.phase
    case Inventory => true
    case Reading => ReadsDone(s)
    case BuildingProfile => true
    case WritingProtocolMode => s.protocolWrites == []
    case Registering => SubscriptionsDone(s)
    case WaitingForCccd => OwnWriteDue(s, now) && !answer.scheduled
    case _ => false
  }

  /** The tick ends 15 seconds or more into a phase. */
  predicate Overdue(s: State, now: nat, later: nat, answer: Answer) {
    && s.phase in {Inventory, Reading, BuildingProfile, WritingProtocolMode, Registering, WaitingForCccd}
    && !Ends(s, answer)
    && (later - (if Leaves(s, now, answer) then now else s.phaseStarted)) % 0x1_0000_0000 >= 15000
  }

  /** The phase behind the work of a tick is the one of the reads. */
  predicate StillReading(s: State, answer: Answer) {
    (s.phase == Inventory && !Ends(s, answer)) || (s.phase == Reading && !ReadsDone(s))
  }

  lemma WrappedDifference(a: nat, b: nat)
    ensures (Wrapped(a) - Wrapped(b)) % 0x1_0000_0000 == (a - b) % 0x1_0000_0000
  {
    var M := 0x1_0000_0000;
    var p, q := a / M, b / M;
    assert a == p * M + Wrapped(a) && b == q * M + Wrapped(b);
    assert a - b == (p - q) * M + (Wrapped(a) - Wrapped(b));
  }

  lemma DueIsWritten(s: State, now: nat)
    requires Orderly(s) && F.FallbackSet(s)
    ensures s.phase == WaitingForCccd && s.activeSubscription.Some? && S.FallbackDue(s.attempt, Wrapped(now))
      <==> OwnWriteDue(s, now)
  {
    if s.phase == WaitingForCccd && !s.attempt.ownWriteAttempted {
      WrappedDifference(now, s.phaseStarted + 250);
    }
  }

  lemma HidOrNot(services: Services)
    ensures HidContexts(services) == map[] <==> !AnyHid(services)
  {
    if AnyHid(services) {
      var i: uint16 :| 0 <= i < |services| && services[i].uuid == 0x1812;
      assert i in HidContexts(services);
    } else {
      assert HidContexts(services) == map[];
    }
  }

  /** Where a phase goes with a tick, and when its timer starts. */
  ghost predicate Timed(s: State, t: State, now: nat, answer: Answer) {
    && (IsBusy(t.phase) <==> IsBusy(s.phase) && !Ends(s, answer))
    && (t.phase == Reading <==> StillReading(s, answer))
    && (IsBusy(t.phase) ==> t.phaseStarted == if Leaves(s, now, answer) then now else s.phaseStarted)
  }

  lemma InventoryTimed(config: Config, s: State, now: nat, answer: Answer)
    requires s.phase == Inventory
    ensures Timed(s, TakeInventory(config, s, now, answer), now, answer)
  {
    hide PlanReads, HidContexts, AnyHid;
    HidOrNot(answer.services);
  }

  lemma WritingTimed(config: Config, s: State, now: nat, scheduled: bool)
    requires s.phase == BuildingProfile || s.phase == WritingProtocolMode
    ensures var t := StartProtocolWrite(config, s, now, scheduled);
      && (t.phase == WritingProtocolMode || t.phase == Registering)
      && t.phaseStarted == if s.phase == BuildingProfile || s.protocolWrites == [] then now else s.phaseStarted
  {
    hide PlanSubscriptions, ProtocolHandles;
  }

  lemma SubscriptionTimed(s: State, now: nat, answer: Answer)
    requires s.phase == Registering
    ensures Timed(s, StartNextSubscription(s, now, answer.scheduled), now, answer)
  {
  }

  lemma WaitTimed(s: State, now: nat, scheduled: bool)
    requires s.phase == WaitingForCccd && s.activeSubscription.Some?
    ensures var t := WriteCccd(s, now, scheduled);
      && t.phase == (if scheduled then WaitingForCccd else Registering)
      && t.phaseStarted == if scheduled then s.phaseStarted else now
  {
  }

  lemma AdvanceTimed(config: Config, s: State, now: nat, answer: Answer)
    requires Orderly(s) && F.FallbackSet(s)
    ensures Timed(s, Advance(config, s, now, answer), now, answer)
  {
    hide TakeInventory, BuildProfile, StartProtocolWrite, StartNextSubscription, WriteCccd, Orderly, S.FallbackDue,
      F.FallbackSet, OwnWriteDue, AnyHid;
    match s.phase {
      case Inventory => InventoryTimed(config, s, now, answer);
      case BuildingProfile =>
        BuildOrderly(s);
        WritingTimed(config, BuildProfile(s), now, answer.scheduled);
      case WritingProtocolMode => WritingTimed(config, s, now, answer.scheduled);
      case Registering => SubscriptionTimed(s, now, answer);
      case WaitingForCccd =>
        DueIsWritten(s, now);
        if s.activeSubscription.Some? {
          WaitTimed(s, now, answer.scheduled);
        }
      case _ =>
    }
  }

  /** A tick runs into the phase timeout exactly if it is overdue. */
  lemma TimeoutIsOverdue(config: Config, s: State, now: nat, later: nat, answer: Answer)
    requires Orderly(s) && F.FallbackSet(s)
    ensures TimedOut(Advance(config, s, now, answer), later) <==> Overdue(s, now, later, answer)
  {
    hide Advance, Orderly, F.FallbackSet, Leaves, Ends, StillReading, Wrapped;
    AdvanceTimed(config, s, now, answer);
    WrappedDifference(later, Advance(config, s, now, answer).phaseStarted);
  }
}
