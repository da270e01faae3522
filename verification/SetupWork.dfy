/** What connection setup has tried by the time it ends, over whole runs: unless it is cut short, it has
    tried every planned read and subscription and has written every known Protocol Mode handle. A
    timeout of the reads cuts only the reads short. */
module SetupWork {
  import opened Integers
  import S = Subscription
  import opened SetupPlan
  import opened Setup
  import opened SetupProofs
  import opened SetupDatabase
  import opened SetupGrounds
  import F = SetupFallback

  /** The event ends setup in front of its work: a failed discovery, a failed or empty inventory, or a
      phase timeout behind the reads. */
  predicate CutsShort(s: State, event: Event) {
    match event
    case DiscoveryComplete(_, success) => !success
    case Tick(now, later, answer) =>
      || (s.phase == Inventory && (!answer.complete || answer.services == []))
      || (Overdue(s, now, later, answer) && !StillReading(s, answer))
    case _ => false
  }

  /** The event is a timeout of the reads. */
  predicate HurriesReads(s: State, event: Event) {
    event.Tick? && Overdue(s, event.now, event.later, event.answer) && StillReading(s, event.answer)
  }

  /** Nothing has cut setup short since the connection began. */
  predicate Undisturbed(config: Config, events: seq<Event>, n: nat)
    requires n <= |events|
  {
    n == 0 || Resets(events[n - 1])
    || (Undisturbed(config, events, n - 1) && !CutsShort(Run(config, events, n - 1), events[n - 1]))
  }

  /** The reads have not timed out since the connection began. */
  predicate Patient(config: Config, events: seq<Event>, n: nat)
    requires n <= |events|
  {
    n == 0 || Resets(events[n - 1])
    || (Patient(config, events, n - 1) && !HurriesReads(Run(config, events, n - 1), events[n - 1]))
  }

  ghost predicate ReadsTried(config: Config, s: State, patient: bool) {
    && s.history.plannedReads == FirstOf(WantedReads(config, s.services), 384)
    && (patient ==> s.history.triedReads == s.history.plannedReads)
  }

  ghost predicate SubscriptionsTried(config: Config, s: State) {
    && s.history.modeWrites == WantedWrites(config, s.services, |s.services|)
    && s.history.plannedSubscriptions == FirstOf(AllWanted(config, s.services, |s.services|), 128)
    && s.history.triedSubscriptions + s.subscriptionQueue == s.history.plannedSubscriptions
  }

  /** In each phase, what was tried and what is still to be tried is what the database asks for. */
  ghost predicate Worked(config: Config, s: State, undisturbed: bool, patient: bool) {
    && (!undisturbed || !patient ==> s.degraded)
    && match s.phase
       case Reading =>
         && ReadsTried(config, s, false) && s.history.triedReads + s.readQueue == s.history.plannedReads
         && s.history.modeWrites == [] && s.history.triedSubscriptions == []
       case BuildingProfile =>
         ReadsTried(config, s, patient) && s.history.modeWrites == [] && s.history.triedSubscriptions == []
       case WritingProtocolMode =>
         && ReadsTried(config, s, patient) && s.history.triedSubscriptions == []
         && s.history.modeWrites + ModeWrites(config, s.protocolWrites)
            == WantedWrites(config, s.services, |s.services|)
       case Registering => ReadsTried(config, s, patient) && SubscriptionsTried(config, s)
       case WaitingForCccd => ReadsTried(config, s, patient) && SubscriptionsTried(config, s)
       case Ready => ReadsTried(config, s, patient) && SubscriptionsTried(config, s)
       case Degraded => undisturbed ==> ReadsTried(config, s, patient) && SubscriptionsTried(config, s)
       case _ => true
  }

  /** What `Worked` depends on, other than the phase. */
  ghost predicate SameWork(s: State, t: State) {
    && t.services == s.services && t.subscriptionQueue == s.subscriptionQueue && t.readQueue == s.readQueue
    && t.protocolWrites == s.protocolWrites
    && t.history.plannedReads == s.history.plannedReads && t.history.triedReads == s.history.triedReads
    && t.history.modeWrites == s.history.modeWrites
    && t.history.plannedSubscriptions == s.history.plannedSubscriptions
    && t.history.triedSubscriptions == s.history.triedSubscriptions
    && (s.degraded ==> t.degraded)
  }

  predicate Subscribing(phase: Phase) { phase == Registering || phase == WaitingForCccd }

  lemma SameIsWorked(config: Config, s: State, t: State, undisturbed: bool, patient: bool)
    requires Worked(config, s, undisturbed, patient) && SameWork(s, t)
    requires t.phase == s.phase || (Subscribing(s.phase) && Subscribing(t.phase))
    ensures Worked(config, t, undisturbed, patient)
  {
    hide WantedReads, AllWanted, WantedWrites, FirstOf, ModeWrites;
  }

  lemma InventoryWorked(config: Config, s: State, now: nat, answer: Answer, undisturbed: bool, patient: bool)
    requires s.phase == Inventory && (!undisturbed || !patient ==> s.degraded)
    requires undisturbed ==> answer.complete && answer.services != []
    ensures Worked(config, TakeInventory(config, s, now, answer), undisturbed, patient)
  {
    hide PlanReads, HidContexts, WantedReads, FirstOf;
    ReadsAreWanted(config, answer.services);
  }

  lemma StartReadWorked(config: Config, s: State, now: nat, scheduled: bool, undisturbed: bool, patient: bool)
    requires Worked(config, s, undisturbed, patient) && s.phase == Reading
    ensures Worked(config, StartNextRead(s, now, scheduled), undisturbed, patient)
  {
    hide WantedReads, FirstOf;
    if s.readQueue != [] {
      assert s.readQueue == [s.readQueue[0]] + s.readQueue[1..];
      assert s.history.triedReads + s.readQueue == s.history.triedReads + [s.readQueue[0]] + s.readQueue[1..];
    }
  }

  lemma CollectedWrites(config: Config, s: State, now: nat)
    requires s.phase == BuildingProfile && KnowsModes(s.contexts, s.services, |s.services|)
    ensures ModeWrites(config, PlanWrites(config, s, now).protocolWrites)
      == WantedWrites(config, s.services, |s.services|)
  {
    hide ModeHandle, ProtocolHandles, KnowsModes;
    if config.policy != Unchanged {
      HandlesAreWanted(config, s.contexts, s.services, |s.services|);
    }
  }

  lemma PlanWritesWorked(config: Config, s: State, now: nat, undisturbed: bool, patient: bool)
    requires Worked(config, s, undisturbed, patient)
    requires s.phase == BuildingProfile && KnowsModes(s.contexts, s.services, |s.services|)
    ensures Worked(config, PlanWrites(config, s, now), undisturbed, patient)
    ensures PlanWrites(config, s, now).phase == WritingProtocolMode
  {
    hide WantedReads, FirstOf, WantedWrites, ModeWrites, ProtocolHandles, KnowsModes;
    CollectedWrites(config, s, now);
  }

  lemma RegisteringWorked(config: Config, s: State, now: nat, undisturbed: bool, patient: bool)
    requires Worked(config, s, undisturbed, patient) && s.phase == WritingProtocolMode && s.protocolWrites == []
    ensures Worked(config, StartRegistering(config, s, now), undisturbed, patient)
  {
    hide WantedReads, FirstOf, WantedWrites, AllWanted, PlanSubscriptions;
    SubscriptionsAreWanted(config, s.services, |s.services|);
    assert s.history.modeWrites + ModeWrites(config, []) == s.history.modeWrites;
  }

  lemma TakeWriteWorked(config: Config, s: State, scheduled: bool, undisturbed: bool, patient: bool)
    requires Worked(config, s, undisturbed, patient) && s.phase == WritingProtocolMode && s.protocolWrites != []
    ensures Worked(config, TakeWrite(config, s, scheduled), undisturbed, patient)
  {
    hide WantedReads, FirstOf, WantedWrites;
    var write := Write(s.protocolWrites[0], ModeOf(config.policy));
    assert ModeWrites(config, s.protocolWrites) == [write] + ModeWrites(config, s.protocolWrites[1..]);
    assert s.history.modeWrites + ModeWrites(config, s.protocolWrites)
      == s.history.modeWrites + [write] + ModeWrites(config, s.protocolWrites[1..]);
  }

  lemma WriteWorked(config: Config, s: State, now: nat, scheduled: bool, undisturbed: bool, patient: bool)
    requires Worked(config, s, undisturbed, patient)
    requires s.phase == WritingProtocolMode
      || (s.phase == BuildingProfile && KnowsModes(s.contexts, s.services, |s.services|))
    ensures Worked(config, StartProtocolWrite(config, s, now, scheduled), undisturbed, patient)
  {
    hide Worked, StartRegistering, TakeWrite, KnowsModes, ProtocolHandles;
    var t := PlanWrites(config, s, now);
    if s.phase == BuildingProfile {
      PlanWritesWorked(config, s, now, undisturbed, patient);
    }
    if t.protocolWrites == [] {
      RegisteringWorked(config, t, now, undisturbed, patient);
    } else {
      TakeWriteWorked(config, t, scheduled, undisturbed, patient);
    }
  }

  lemma SubscribeWorked(config: Config, s: State, now: nat, scheduled: bool, undisturbed: bool, patient: bool)
    requires Worked(config, s, undisturbed, patient) && s.phase == Registering
    ensures Worked(config, StartNextSubscription(s, now, scheduled), undisturbed, patient)
  {
    hide WantedReads, FirstOf, WantedWrites, AllWanted;
    if s.subscriptionQueue != [] {
      var sub := s.subscriptionQueue[0];
      assert s.history.triedSubscriptions + s.subscriptionQueue
        == s.history.triedSubscriptions + [sub] + s.subscriptionQueue[1..];
    }
  }

  lemma AttemptWork(s: State, sub: Subscription, now: nat)
    ensures SameWork(s, FailAttempt(s, sub, now)) && SameWork(s, CompleteAttempt(s, sub, now))
  {
  }

  lemma WriteCccdWork(s: State, now: nat, scheduled: bool)
    ensures SameWork(s, WriteCccd(s, now, scheduled))
    ensures WriteCccd(s, now, scheduled).phase in {s.phase, Registering}
  {
    hide FailAttempt;
    if s.activeSubscription.Some? {
      var sub := s.activeSubscription.value;
      var t := s.(attempt := s.attempt.(ownWriteAttempted := true), history := CountWrite(s.history, sub));
      AttemptWork(t, sub, now);
      AttemptLeadsOn(t, sub, now);
    }
  }

  lemma AttemptLeadsOn(s: State, sub: Subscription, now: nat)
    ensures FailAttempt(s, sub, now).phase == Registering && CompleteAttempt(s, sub, now).phase == Registering
  {
  }

  lemma BuildWorked(config: Config, s: State, undisturbed: bool, patient: bool)
    requires Worked(config, s, undisturbed, patient) && Grounded(s) && Orderly(s) && s.phase == BuildingProfile
    ensures Worked(config, BuildProfile(s), undisturbed, patient)
    ensures BuildProfile(s).phase == BuildingProfile && BuildProfile(s).services == s.services
    ensures KnowsModes(BuildProfile(s).contexts, s.services, |s.services|)
  {
    hide BuildProfiles, Worked, KnowsModes, Grounded, SameWork;
    BuildGrounded(s);
    BuildWork(s);
    SameIsWorked(config, s, BuildProfile(s), undisturbed, patient);
  }

  lemma BuildWork(s: State)
    ensures SameWork(s, BuildProfile(s)) && BuildProfile(s).phase == s.phase
  {
    hide BuildProfiles;
    BuildKeeps(Profile(s.sources, s.contexts, s.reportHandles, s.degraded), s.services, |s.services|);
  }

  /** The work of a tick, apart from the timeout. */
  lemma AdvanceWorked(config: Config, s: State, now: nat, answer: Answer, undisturbed: bool, patient: bool)
    requires Grounded(s) && Orderly(s)
    requires if s.phase == Inventory
             then (!undisturbed || !patient ==> s.degraded)
               && (undisturbed ==> answer.complete && answer.services != [])
             else Worked(config, s, undisturbed, patient)
    ensures Worked(config, Advance(config, s, now, answer), undisturbed, patient)
  {
    hide TakeInventory, StartNextRead, BuildProfile, StartProtocolWrite, StartNextSubscription, WriteCccd, Orderly,
      S.FallbackDue, Grounded, Worked, KnowsModes, SameWork;
    match s.phase {
      case Inventory => InventoryWorked(config, s, now, answer, undisturbed, patient);
      case Reading => StartReadWorked(config, s, now, answer.scheduled, undisturbed, patient);
      case BuildingProfile =>
        BuildWorked(config, s, undisturbed, patient);
        WriteWorked(config, BuildProfile(s), now, answer.scheduled, undisturbed, patient);
      case WritingProtocolMode => WriteWorked(config, s, now, answer.scheduled, undisturbed, patient);
      case Registering => SubscribeWorked(config, s, now, answer.scheduled, undisturbed, patient);
      case WaitingForCccd =>
        WriteCccdWork(s, now, answer.scheduled);
        SameIsWorked(config, s, WriteCccd(s, now, answer.scheduled), undisturbed, patient);
      case _ =>
    }
  }

  /** A timeout of the reads goes on with what was read; any other ends setup. */
  lemma TimeoutWorked(config: Config, s: State, now: nat, undisturbed: bool, patient: bool)
    requires Worked(config, s, undisturbed, patient)
    ensures var out := TimedOut(s, now);
      Worked(config, CheckTimeout(s, now), undisturbed && !(out && s.phase != Reading),
             patient && !(out && s.phase == Reading))
  {
    hide TimedOut, WantedReads, FirstOf, WantedWrites, AllWanted, ModeWrites;
  }

  lemma TickWorked(config: Config, s: State, event: Event, undisturbed: bool, patient: bool)
    requires Grounded(s) && Orderly(s) && F.FallbackSet(s) && event.Tick? && Worked(config, s, undisturbed, patient)
    ensures Worked(config, Step(config, s, event), undisturbed && !CutsShort(s, event),
                   patient && !HurriesReads(s, event))
  {
    hide Advance, CheckTimeout, Orderly, Grounded, F.FallbackSet, TimedOut, Overdue, StillReading, ReadsTried,
      SubscriptionsTried;
    var t := Advance(config, s, event.now, event.answer);
    var failed := s.phase == Inventory && (!event.answer.complete || event.answer.services == []);
    TimeoutIsOverdue(config, s, event.now, event.later, event.answer);
    AdvanceTimed(config, s, event.now, event.answer);
    if failed {
      FailedInventoryWorked(config, s, event, patient);
    } else {
      AdvanceWorked(config, s, event.now, event.answer, undisturbed, patient);
      TimeoutWorked(config, t, event.later, undisturbed, patient);
    }
  }

  lemma FailedInventoryWorked(config: Config, s: State, event: Event, patient: bool)
    requires event.Tick? && s.phase == Inventory && (!event.answer.complete || event.answer.services == [])
    ensures Step(config, s, event).phase == Degraded && Step(config, s, event).degraded
    ensures !HurriesReads(s, event) && CutsShort(s, event)
  {
    hide PlanReads, HidContexts, AnyHid;
  }

  lemma ReadWork(s: State, handle: uint16, success: bool, value: Buffer)
    ensures SameWork(s, FinishRead(s, handle, success, value))
    ensures FinishRead(s, handle, success, value).phase == s.phase
  {
    hide ProcessReadValue;
    if s.activeRead.Some? {
      ProcessFrame(s.(activeRead := None), s.activeRead.value, if value.Null? then [] else value.bytes);
    }
  }

  lemma RegistrationWork(s: State, handle: uint16, success: bool, now: nat)
    requires Orderly(s)
    ensures SameWork(s, FinishRegistration(s, handle, success, now))
    ensures var t := FinishRegistration(s, handle, success, now);
      t.phase == s.phase || (Subscribing(s.phase) && Subscribing(t.phase))
  {
    hide FailAttempt;
    if s.activeSubscription.Some? {
      var t := s.(attempt := S.Registered(s.attempt, handle, success, Wrapped(now)));
      AttemptWork(t, s.activeSubscription.value, now);
      AttemptLeadsOn(t, s.activeSubscription.value, now);
    }
  }

  lemma CccdWork(s: State, handle: uint16, success: bool, now: nat, scheduled: bool)
    requires Orderly(s)
    ensures SameWork(s, FinishCccdWrite(s, handle, success, now, scheduled))
    ensures var t := FinishCccdWrite(s, handle, success, now, scheduled);
      t.phase == s.phase || (Subscribing(s.phase) && Subscribing(t.phase))
  {
    hide FinishCccdWrite, WriteCccd, CompleteAttempt, FailAttempt, S.CccdDecision, Orderly;
    CccdCases(s, handle, success, now, scheduled);
    WriteCccdWork(s, now, scheduled);
    if s.activeSubscription.Some? {
      AttemptWork(s, s.activeSubscription.value, now);
      AttemptLeadsOn(s, s.activeSubscription.value, now);
    }
  }

  lemma OtherWorked(config: Config, s: State, event: Event, undisturbed: bool, patient: bool)
    requires Worked(config, s, undisturbed, patient)
    requires event.Connect? || event.Disconnect? || event.DiscoveryComplete? || event.Congestion?
    ensures Worked(config, Step(config, s, event), Resets(event) || (undisturbed && !CutsShort(s, event)),
                   Resets(event) || (patient && !HurriesReads(s, event)))
  {
    hide WantedReads, FirstOf, WantedWrites, AllWanted, ModeWrites;
  }

  lemma StepWorked(config: Config, s: State, event: Event, undisturbed: bool, patient: bool)
    requires Grounded(s) && Orderly(s) && F.FallbackSet(s) && Worked(config, s, undisturbed, patient)
    ensures Worked(config, Step(config, s, event), Resets(event) || (undisturbed && !CutsShort(s, event)),
                   Resets(event) || (patient && !HurriesReads(s, event)))
  {
    hide Advance, FinishRead, FinishRegistration, FinishCccdWrite, CheckTimeout, Orderly, Grounded, F.FallbackSet,
      Worked, SameWork, Overdue, StillReading;
    match event
    case Tick(_, _, _) =>
      hide Step;
      TickWorked(config, s, event, undisturbed, patient);
    case ReadDone(_, handle, success, value) =>
      ReadWork(s, handle, success, value);
      SameIsWorked(config, s, FinishRead(s, handle, success, value), undisturbed, patient);
    case RegistrationDone(now, handle, success) =>
      RegistrationWork(s, handle, success, now);
      SameIsWorked(config, s, FinishRegistration(s, handle, success, now), undisturbed, patient);
    case CccdWriteDone(now, handle, success, scheduled) =>
      CccdWork(s, handle, success, now, scheduled);
      SameIsWorked(config, s, FinishCccdWrite(s, handle, success, now, scheduled), undisturbed, patient);
    case _ => OtherWorked(config, s, event, undisturbed, patient);
  }

  lemma {:induction false} RunWorked(config: Config, events: seq<Event>, n: nat)
    requires n <= |events| && ExpectedRun(config, events)
    ensures Worked(config, Run(config, events, n), Undisturbed(config, events, n), Patient(config, events, n))
  {
    hide Step, Worked, Orderly, Expected, Grounded, CutsShort, HurriesReads, F.FallbackSet;
    if n == 0 {
      FreshWorked(config);
    } else {
      RunWorked(config, events, n - 1);
      RunOrderly(config, events, n - 1);
      RunGrounded(config, events, n - 1);
      F.RunKeepsFallback(config, events, n - 1);
      StepWorked(config, Run(config, events, n - 1), events[n - 1], Undisturbed(config, events, n - 1),
                 Patient(config, events, n - 1));
    }
  }

  lemma FreshWorked(config: Config)
    ensures Worked(config, Fresh(Disconnected, 0), true, true)
  {
  }

  /** Setup that ends without having been cut short has asked the stack for everything that the database
      calls for and the limits allow, in order and each thing once: the wanted subscriptions, a write for
      every known Protocol Mode handle (none under `unchanged`), and, unless the reads timed out, the
      wanted reads. READY always means that. */
  lemma WantedIsTried(config: Config, events: seq<Event>, n: nat)
    requires n <= |events| && ExpectedRun(config, events)
    requires var phase := Run(config, events, n).phase;
      phase == Ready || (phase == Degraded && Undisturbed(config, events, n))
    ensures var s := Run(config, events, n);
      && s.services == Inventoried(config, events, n)
      && s.history.triedSubscriptions == FirstOf(AllWanted(config, s.services, |s.services|), 128)
      && s.history.modeWrites == WantedWrites(config, s.services, |s.services|)
      && (s.phase == Ready || Patient(config, events, n) ==>
            s.history.triedReads == FirstOf(WantedReads(config, s.services), 384))
  {
    hide Run, WantedReads, FirstOf, WantedWrites, AllWanted, ReadsOk, AllReferencesOk, SubscriptionsOk, AttemptOk;
    RunWorked(config, events, n);
    RunDatabase(config, events, n);
    RunOrderly(config, events, n);
    RunHonest(config, events, n);
    var s := Run(config, events, n);
    assert s.history.triedSubscriptions + [] == s.history.triedSubscriptions;
  }

  // ---------- the component's own CCCD writes ----------

  /** Notifications are asked for with 1, indications with 2. */
  predicate EnablesOne(tried: seq<Subscription>, write: Write) {
    exists sub | sub in tried :: write == Write(sub.cccdHandle, if sub.canNotify then 1 else 2)
  }

  /** Only what was tried is active or done, and the component writes no other CCCD and no other value. */
  ghost predicate AttemptsTried(s: State) {
    var tried := s.history.triedSubscriptions;
    && (s.activeSubscription.Some? ==> s.activeSubscription.value in tried)
    && (forall sub | sub in s.history.doneSubscriptions :: sub in tried)
    && (forall write | write in s.history.cccdWrites :: EnablesOne(tried, write))
  }

  ghost predicate SameAttempts(s: State, t: State) {
    && (t.activeSubscription.Some? ==> t.activeSubscription == s.activeSubscription)
    && t.history.triedSubscriptions == s.history.triedSubscriptions
    && t.history.doneSubscriptions == s.history.doneSubscriptions && t.history.cccdWrites == s.history.cccdWrites
  }

  lemma SameIsTried(s: State, t: State)
    requires AttemptsTried(s) && SameAttempts(s, t)
    ensures AttemptsTried(t)
  {
    hide EnablesOne;
  }

  lemma MoreTried(tried: seq<Subscription>, sub: Subscription, write: Write)
    requires EnablesOne(tried, write)
    ensures EnablesOne(tried + [sub], write)
  {
  }

  lemma StartIsTried(s: State, now: nat, scheduled: bool)
    requires AttemptsTried(s)
    ensures AttemptsTried(StartNextSubscription(s, now, scheduled))
  {
    hide EnablesOne;
    if s.subscriptionQueue != [] {
      forall write | write in s.history.cccdWrites
        ensures EnablesOne(s.history.triedSubscriptions + [s.subscriptionQueue[0]], write)
      {
        MoreTried(s.history.triedSubscriptions, s.subscriptionQueue[0], write);
      }
    }
  }

  lemma FailedIsTried(s: State, sub: Subscription, now: nat)
    requires AttemptsTried(s) && s.activeSubscription == Some(sub)
    ensures AttemptsTried(FailAttempt(s, sub, now)) && AttemptsTried(CompleteAttempt(s, sub, now))
  {
    hide EnablesOne;
  }

  lemma WriteIsTried(s: State, now: nat, scheduled: bool)
    requires AttemptsTried(s)
    ensures AttemptsTried(WriteCccd(s, now, scheduled))
  {
    hide FailAttempt, EnablesOne;
    if s.activeSubscription.Some? {
      var sub := s.activeSubscription.value;
      var t := s.(attempt := s.attempt.(ownWriteAttempted := true), history := CountWrite(s.history, sub));
      CountedIsTried(s, sub);
      FailedIsTried(t, sub, now);
    }
  }

  lemma CountedIsTried(s: State, sub: Subscription)
    requires AttemptsTried(s) && s.activeSubscription == Some(sub)
    ensures AttemptsTried(s.(attempt := s.attempt.(ownWriteAttempted := true), history := CountWrite(s.history, sub)))
  {
    var write := Write(sub.cccdHandle, if sub.canNotify then 1 else 2);
    assert EnablesOne(s.history.triedSubscriptions, write);
  }

  lemma InventoryIsTried(config: Config, s: State, now: nat, answer: Answer)
    requires AttemptsTried(s) && s.activeSubscription.None?
    ensures AttemptsTried(TakeInventory(config, s, now, answer))
  {
    hide PlanReads, HidContexts, EnablesOne;
  }

  lemma LoopAttempts(config: Config, s: State, now: nat, scheduled: bool)
    ensures SameAttempts(s, StartNextRead(s, now, scheduled)) && SameAttempts(s, BuildProfile(s))
  {
    hide BuildProfiles;
  }

  lemma WriteAttempts(config: Config, s: State, now: nat, scheduled: bool)
    ensures SameAttempts(s, StartProtocolWrite(config, s, now, scheduled))
  {
    hide StartRegistering, TakeWrite, ProtocolHandles;
    var t := PlanWrites(config, s, now);
    RegisteringAttempts(config, t, now);
    if t.protocolWrites != [] {
      TakeWriteAttempts(config, t, scheduled);
    }
  }

  lemma RegisteringAttempts(config: Config, s: State, now: nat)
    ensures SameAttempts(s, StartRegistering(config, s, now))
  {
    hide PlanSubscriptions;
  }

  lemma TakeWriteAttempts(config: Config, s: State, scheduled: bool)
    requires s.protocolWrites != []
    ensures SameAttempts(s, TakeWrite(config, s, scheduled))
  {
  }

  lemma AdvanceIsTried(config: Config, s: State, now: nat, answer: Answer)
    requires AttemptsTried(s) && Orderly(s)
    ensures AttemptsTried(Advance(config, s, now, answer))
  {
    hide TakeInventory, StartNextRead, BuildProfile, StartProtocolWrite, StartNextSubscription, WriteCccd,
      S.FallbackDue, AttemptsTried, SameAttempts, AttemptOk;
    match s.phase {
      case Inventory => InventoryIsTried(config, s, now, answer);
      case Reading =>
        LoopAttempts(config, s, now, answer.scheduled);
        SameIsTried(s, StartNextRead(s, now, answer.scheduled));
      case BuildingProfile =>
        LoopAttempts(config, s, now, answer.scheduled);
        SameIsTried(s, BuildProfile(s));
        WriteAttempts(config, BuildProfile(s), now, answer.scheduled);
        SameIsTried(BuildProfile(s), StartProtocolWrite(config, BuildProfile(s), now, answer.scheduled));
      case WritingProtocolMode =>
        WriteAttempts(config, s, now, answer.scheduled);
        SameIsTried(s, StartProtocolWrite(config, s, now, answer.scheduled));
      case Registering => StartIsTried(s, now, answer.scheduled);
      case WaitingForCccd => WriteIsTried(s, now, answer.scheduled);
      case _ =>
    }
  }

  lemma CccdIsTried(s: State, handle: uint16, success: bool, now: nat, scheduled: bool)
    requires AttemptsTried(s) && Orderly(s)
    ensures AttemptsTried(FinishCccdWrite(s, handle, success, now, scheduled))
  {
    hide FinishCccdWrite, WriteCccd, CompleteAttempt, FailAttempt, S.CccdDecision, Orderly, AttemptsTried;
    CccdCases(s, handle, success, now, scheduled);
    WriteIsTried(s, now, scheduled);
    if s.activeSubscription.Some? {
      FailedIsTried(s, s.activeSubscription.value, now);
    }
  }

  lemma RegistrationIsTried(s: State, handle: uint16, success: bool, now: nat)
    requires AttemptsTried(s)
    ensures AttemptsTried(FinishRegistration(s, handle, success, now))
  {
    hide FailAttempt, S.RegistrationDecision, S.Registered, EnablesOne;
    if s.activeSubscription.Some? {
      FailedIsTried(s.(attempt := S.Registered(s.attempt, handle, success, Wrapped(now))), s.activeSubscription.value,
                    now);
    }
  }

  lemma ReadAttempts(s: State, handle: uint16, success: bool, value: Buffer)
    ensures SameAttempts(s, FinishRead(s, handle, success, value))
  {
    hide ProcessReadValue;
    if s.activeRead.Some? {
      ProcessFrame(s.(activeRead := None), s.activeRead.value, if value.Null? then [] else value.bytes);
    }
  }

  lemma TimeoutAttempts(s: State, now: nat)
    ensures SameAttempts(s, CheckTimeout(s, now))
  {
    hide TimedOut;
  }

  lemma OtherIsTried(config: Config, s: State, event: Event)
    requires AttemptsTried(s)
    requires event.Connect? || event.Disconnect? || event.DiscoveryComplete? || event.Congestion?
    ensures AttemptsTried(Step(config, s, event))
  {
    hide EnablesOne;
  }

  lemma StepIsTried(config: Config, s: State, event: Event)
    requires AttemptsTried(s) && Orderly(s)
    ensures AttemptsTried(Step(config, s, event))
  {
    hide Advance, FinishRead, FinishRegistration, FinishCccdWrite, CheckTimeout, Orderly, AttemptsTried, SameAttempts;
    match event
    case Tick(now, later, answer) =>
      AdvanceIsTried(config, s, now, answer);
      TimeoutAttempts(Advance(config, s, now, answer), later);
      SameIsTried(Advance(config, s, now, answer), CheckTimeout(Advance(config, s, now, answer), later));
    case ReadDone(_, handle, success, value) =>
      ReadAttempts(s, handle, success, value);
      SameIsTried(s, FinishRead(s, handle, success, value));
    case RegistrationDone(now, handle, success) => RegistrationIsTried(s, handle, success, now);
    case CccdWriteDone(now, handle, success, scheduled) => CccdIsTried(s, handle, success, now, scheduled);
    case _ => OtherIsTried(config, s, event);
  }

  /** In every state of an expected run, a subscription is confirmed or under way only if it was tried, and
      every own CCCD write goes to the CCCD of one that was tried, with the value for its kind. */
  lemma {:induction false} OnlyTriedIsWritten(config: Config, events: seq<Event>, n: nat)
    requires n <= |events| && ExpectedRun(config, events)
    ensures AttemptsTried(Run(config, events, n))
  {
    hide Step, AttemptsTried, Orderly, Expected;
    if n == 0 {
      FreshIsTried();
    } else {
      OnlyTriedIsWritten(config, events, n - 1);
      RunOrderly(config, events, n - 1);
      StepIsTried(config, Run(config, events, n - 1), events[n - 1]);
    }
  }

  lemma FreshIsTried()
    ensures AttemptsTried(Fresh(Disconnected, 0))
  {
  }
}
