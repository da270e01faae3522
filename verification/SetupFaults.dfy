/** When connection setup is degraded: exactly if a fault has happened since the connection began. The
    faults are written over the events, the plans and the database; a setup that ends is READY exactly
    if there was none. */
module SetupFaults {
  import opened Integers
  import HidCompiler
  import S = Subscription
  import opened SetupPlan
  import opened Setup
  import opened SetupProofs
  import opened SetupDatabase
  import opened SetupGrounds
  import opened SetupReferences
  import F = SetupFallback

  predicate IsHid(services: Services, i: uint16) { i < |services| && services[i].uuid == 0x1812 }

  /** The length of an answer: that of a null value is what the stack claims. */
  function LengthOf(value: Buffer): nat { if value.Null? then value.length else |value.bytes| }

  /** A value of the wrong length, or one that means nothing. */
  predicate BadValue(services: Services, op: ReadOp, bytes: seq<uint8>) {
    match op.purpose
    case Generic => false
    case Name => false
    case Appearance => |bytes| != 2
    case PreferredParameters => |bytes| != 8
    case Battery => |bytes| < 1
    case PnpId => |bytes| < 7
    case Information => !IsHid(services, op.service) || |bytes| != 4
    case ReportMap => !IsHid(services, op.service) || |bytes| == 0 || HidCompiler.Compile(bytes).None?
    case ProtocolMode => !IsHid(services, op.service) || |bytes| != 1
    case ReportReference => |bytes| != 2 || bytes[1] == 0 || bytes[1] > 3
    case ExternalReference => |bytes| != 2
    case ReportValue => false
  }

  /** A read that delivers nothing is a fault if it was required, a bad value always is one. */
  predicate BadAnswer(services: Services, op: ReadOp, success: bool, value: Buffer) {
    if !success || LengthOf(value) > 4096 || (value.Null? && value.length > 0) then op.required
    else BadValue(services, op, if value.Null? then [] else value.bytes)
  }

  /** No services, an inventory that failed or hit a limit, or a plan that does. */
  predicate BadInventory(config: Config, answer: Answer) {
    || !answer.complete || answer.limited || answer.services == [] || |answer.services| >= 64
    || (AnyHid(answer.services) && |WantedReads(config, answer.services)| > 384)
  }

  /** A request that the stack did not take. */
  predicate BadRead(s: State, scheduled: bool) {
    s.activeRead.None? && !s.congested && s.readQueue != [] && s.readQueue[0].required && !scheduled
  }

  /** A Protocol Mode write that the stack did not take, or behind the last one more subscriptions than
      the limit allows. */
  predicate BadWrite(config: Config, services: Services, pending: bool, scheduled: bool) {
    if pending then !scheduled else |AllWanted(config, services, |services|)| > 128
  }

  /** A required subscription without a CCCD, or one that the stack did not take. */
  predicate BadSubscription(s: State, scheduled: bool) {
    && s.activeSubscription.None? && !s.congested && s.subscriptionQueue != [] && s.subscriptionQueue[0].required
    && (s.subscriptionQueue[0].cccdHandle == 0 || !scheduled)
  }

  predicate BadFallback(s: State, now: nat, scheduled: bool) {
    OwnWriteDue(s, now) && s.activeSubscription.Some? && s.activeSubscription.value.required && !scheduled
  }

  ghost predicate BadProfile(s: State) {
    exists i: uint16 | 0 <= i < |s.services| :: BadReference(s.sources, s.contexts, s.services, i)
  }

  /** A fault in the work of a tick, by phase. */
  ghost predicate BadTick(config: Config, s: State, now: nat, answer: Answer) {
    match s.phase
    case Inventory => BadInventory(config, answer)
    case Reading => BadRead(s, answer.scheduled)
    case BuildingProfile =>
      || BadProfile(s)
      || BadWrite(config, s.services, WantedWrites(config, s.services, |s.services|) != [], answer.scheduled)
    case WritingProtocolMode => BadWrite(config, s.services, s.protocolWrites != [], answer.scheduled)
    case Registering => BadSubscription(s, answer.scheduled)
    case WaitingForCccd => BadFallback(s, now, answer.scheduled)
    case _ => false
  }

  /** The faults of setup. */
  ghost predicate Fault(config: Config, s: State, event: Event) {
    match event
    case DiscoveryComplete(_, success) => !success
    case Tick(now, later, answer) => BadTick(config, s, now, answer) || Overdue(s, now, later, answer)
    case ReadDone(_, handle, success, value) =>
      s.activeRead.Some? && s.activeRead.value.handle == handle
      && BadAnswer(s.services, s.activeRead.value, success, value)
    case RegistrationDone(_, handle, success) =>
      s.phase == Registering && s.activeSubscription.Some? && s.activeSubscription.value.characteristicHandle == handle
      && s.activeSubscription.value.required && !success
    case CccdWriteDone(_, handle, success, scheduled) =>
      s.phase == WaitingForCccd && s.activeSubscription.Some? && s.activeSubscription.value.cccdHandle == handle
      && s.activeSubscription.value.required && !success && (s.history.ownWrites > 0 || !scheduled)
    case _ => false
  }

  // ---------- one step ----------

  lemma InventoryFault(config: Config, s: State, now: nat, answer: Answer)
    ensures TakeInventory(config, s, now, answer).degraded <==> s.degraded || BadInventory(config, answer)
  {
    hide PlanReads, HidContexts, AnyHid, WantedReads;
    HidOrNot(answer.services);
    ReadsAreWanted(config, answer.services);
  }

  lemma StartReadFault(s: State, now: nat, scheduled: bool)
    ensures StartNextRead(s, now, scheduled).degraded <==> s.degraded || BadRead(s, scheduled)
  {
  }

  lemma BuildFault(s: State)
    ensures BuildProfile(s).degraded <==> s.degraded || BadProfile(s)
  {
    hide BuildProfiles, BadReference;
    ProfilesFind(Profile(s.sources, s.contexts, s.reportHandles, s.degraded), s.services, |s.services|);
  }

  lemma PendingFault(config: Config, s: State, now: nat, scheduled: bool)
    requires s.phase == BuildingProfile || s.phase == WritingProtocolMode
    ensures StartProtocolWrite(config, s, now, scheduled).degraded
      <==> s.degraded || BadWrite(config, s.services, PlanWrites(config, s, now).protocolWrites != [], scheduled)
  {
    hide PlanSubscriptions, ProtocolHandles, AllWanted, FirstOf;
    SubscriptionsAreWanted(config, s.services, |s.services|);
  }

  lemma WritesArePending(config: Config, s: State, now: nat)
    requires s.phase == BuildingProfile && KnowsModes(s.contexts, s.services, |s.services|)
    ensures PlanWrites(config, s, now).protocolWrites != [] <==> WantedWrites(config, s.services, |s.services|) != []
  {
    hide ModeHandle, ProtocolHandles, KnowsModes;
    if config.policy != Unchanged {
      HandlesAreWanted(config, s.contexts, s.services, |s.services|);
      assert |ModeWrites(config, ProtocolHandles(s.contexts, |s.services|))|
        == |ProtocolHandles(s.contexts, |s.services|)|;
    }
  }

  lemma BuildingFault(config: Config, s: State, now: nat, scheduled: bool)
    requires Orderly(s) && Grounded(s) && s.phase == BuildingProfile
    ensures StartProtocolWrite(config, BuildProfile(s), now, scheduled).degraded <==>
      || s.degraded || BadProfile(s)
      || BadWrite(config, s.services, WantedWrites(config, s.services, |s.services|) != [], scheduled)
  {
    hide StartProtocolWrite, PlanWrites, BuildProfile, BadProfile, BadWrite, WantedWrites, Orderly, Grounded,
      KnowsModes;
    BuildFault(s);
    BuildOrderly(s);
    BuildGrounded(s);
    PendingFault(config, BuildProfile(s), now, scheduled);
    WritesArePending(config, BuildProfile(s), now);
  }

  lemma SubscribeFault(s: State, now: nat, scheduled: bool)
    ensures StartNextSubscription(s, now, scheduled).degraded <==> s.degraded || BadSubscription(s, scheduled)
  {
  }

  lemma WriteCccdFault(s: State, now: nat, scheduled: bool)
    ensures WriteCccd(s, now, scheduled).degraded
      <==> s.degraded || (s.activeSubscription.Some? && s.activeSubscription.value.required && !scheduled)
  {
  }

  lemma AdvanceFault(config: Config, s: State, now: nat, answer: Answer)
    requires Orderly(s) && Grounded(s) && F.FallbackSet(s)
    ensures Advance(config, s, now, answer).degraded <==> s.degraded || BadTick(config, s, now, answer)
  {
    hide TakeInventory, StartNextRead, BuildProfile, StartProtocolWrite, StartNextSubscription, WriteCccd, Orderly,
      S.FallbackDue, Grounded, F.FallbackSet, OwnWriteDue, BadInventory, BadRead, BadProfile, BadWrite,
      BadSubscription, WantedWrites;
    match s.phase {
      case Inventory => InventoryFault(config, s, now, answer);
      case Reading => StartReadFault(s, now, answer.scheduled);
      case BuildingProfile => BuildingFault(config, s, now, answer.scheduled);
      case WritingProtocolMode => WritingFault(config, s, now, answer.scheduled);
      case Registering => SubscribeFault(s, now, answer.scheduled);
      case WaitingForCccd =>
        DueIsWritten(s, now);
        WriteCccdFault(s, now, answer.scheduled);
      case _ =>
    }
  }

  lemma WritingFault(config: Config, s: State, now: nat, scheduled: bool)
    requires s.phase == WritingProtocolMode
    ensures StartProtocolWrite(config, s, now, scheduled).degraded
      <==> s.degraded || BadWrite(config, s.services, s.protocolWrites != [], scheduled)
  {
    hide StartProtocolWrite, BadWrite;
    PendingFault(config, s, now, scheduled);
  }

  lemma ProcessFault(s: State, op: ReadOp, bytes: seq<uint8>)
    requires ContextsOk(s.contexts, s.services)
    ensures ProcessReadValue(s, op, bytes).degraded <==> s.degraded || BadValue(s.services, op, bytes)
  {
    hide HidCompiler.Compile, SourceOf, HasMode;
    assert op.service in s.contexts <==> IsHid(s.services, op.service);
  }

  lemma ReadFault(s: State, handle: uint16, success: bool, value: Buffer)
    requires Grounded(s)
    ensures FinishRead(s, handle, success, value).degraded
      <==> s.degraded || Fault(Config(false, Unchanged), s, ReadDone(0, handle, success, value))
  {
    hide ProcessReadValue, ContextsOk, AllReadModes, ReadsMode, BadValue;
    if s.activeRead.Some? {
      ProcessFault(s.(activeRead := None), s.activeRead.value, if value.Null? then [] else value.bytes);
    }
  }

  lemma RegistrationFault(config: Config, s: State, handle: uint16, success: bool, now: nat)
    requires Orderly(s)
    ensures FinishRegistration(s, handle, success, now).degraded
      <==> s.degraded || Fault(config, s, RegistrationDone(now, handle, success))
  {
    hide FailAttempt;
    if s.activeSubscription.Some? {
      FailFault(s.(attempt := S.Registered(s.attempt, handle, success, Wrapped(now))), s.activeSubscription.value, now);
    }
  }

  lemma FailFault(s: State, sub: Subscription, now: nat)
    ensures FailAttempt(s, sub, now).degraded <==> s.degraded || sub.required
  {
  }

  lemma CccdFault(config: Config, s: State, handle: uint16, success: bool, now: nat, scheduled: bool)
    requires Orderly(s)
    ensures FinishCccdWrite(s, handle, success, now, scheduled).degraded
      <==> s.degraded || Fault(config, s, CccdWriteDone(now, handle, success, scheduled))
  {
    hide WriteCccd;
    WriteCccdFault(s.(attempt := S.CccdWritten(s.attempt, handle, success)), now, scheduled);
  }

  lemma TimeoutFault(s: State, now: nat)
    ensures CheckTimeout(s, now).degraded <==> s.degraded || TimedOut(s, now)
  {
    hide TimedOut;
  }

  lemma OtherFault(config: Config, s: State, event: Event)
    requires event.Connect? || event.Disconnect? || event.DiscoveryComplete? || event.Congestion?
    ensures Step(config, s, event).degraded <==> !Resets(event) && (s.degraded || Fault(config, s, event))
  {
  }

  /** A step degrades setup exactly if it has a fault; only a new connection repairs it. */
  lemma StepFault(config: Config, s: State, event: Event)
    requires Orderly(s) && Grounded(s) && F.FallbackSet(s)
    ensures Step(config, s, event).degraded <==> !Resets(event) && (s.degraded || Fault(config, s, event))
  {
    hide Advance, FinishRead, FinishRegistration, FinishCccdWrite, CheckTimeout, Orderly, Grounded, F.FallbackSet,
      BadTick, BadAnswer, Overdue, TimedOut;
    match event
    case Tick(now, later, answer) =>
      AdvanceFault(config, s, now, answer);
      TimeoutIsOverdue(config, s, now, later, answer);
      TimeoutFault(Advance(config, s, now, answer), later);
    case ReadDone(_, handle, success, value) => ReadFault(s, handle, success, value);
    case RegistrationDone(now, handle, success) => RegistrationFault(config, s, handle, success, now);
    case CccdWriteDone(now, handle, success, scheduled) => CccdFault(config, s, handle, success, now, scheduled);
    case _ => OtherFault(config, s, event);
  }

  // ---------- runs ----------

  /** One of the first `n` events, since the last connection or disconnection, is a fault. */
  ghost predicate Faulted(config: Config, events: seq<Event>, n: nat)
    requires n <= |events|
  {
    exists i | 0 <= i < n ::
      Fault(config, Run(config, events, i), events[i]) && forall j | i <= j < n :: !Resets(events[j])
  }

  lemma FaultedNext(config: Config, events: seq<Event>, n: nat)
    requires 0 < n <= |events|
    ensures Faulted(config, events, n) <==>
      !Resets(events[n - 1])
      && (Faulted(config, events, n - 1) || Fault(config, Run(config, events, n - 1), events[n - 1]))
  {
    hide Fault, Run;
    if Faulted(config, events, n - 1) && !Resets(events[n - 1]) {
      var i :| 0 <= i < n - 1 && Fault(config, Run(config, events, i), events[i])
        && forall j | i <= j < n - 1 :: !Resets(events[j]);
      assert Fault(config, Run(config, events, i), events[i]) && forall j | i <= j < n :: !Resets(events[j]);
    }
    if Faulted(config, events, n) && !Fault(config, Run(config, events, n - 1), events[n - 1]) {
      var i :| 0 <= i < n && Fault(config, Run(config, events, i), events[i])
        && forall j | i <= j < n :: !Resets(events[j]);
      assert i < n - 1 && !Resets(events[n - 1]);
    }
  }

  /** In every expected run setup is degraded exactly if a fault has happened since the connection began. */
  lemma {:induction false} DegradedMeansFault(config: Config, events: seq<Event>, n: nat)
    requires n <= |events| && ExpectedRun(config, events)
    ensures Run(config, events, n).degraded <==> Faulted(config, events, n)
  {
    hide Step, Orderly, Expected, Grounded, F.FallbackSet, Fault, Faulted;
    if n == 0 {
      NoFaultYet(config, events);
    } else {
      DegradedMeansFault(config, events, n - 1);
      RunOrderly(config, events, n - 1);
      RunGrounded(config, events, n - 1);
      F.RunKeepsFallback(config, events, n - 1);
      StepFault(config, Run(config, events, n - 1), events[n - 1]);
      FaultedNext(config, events, n);
    }
  }

  lemma NoFaultYet(config: Config, events: seq<Event>)
    ensures !Faulted(config, events, 0)
  {
  }

  /** A setup that has ended with a HID service, or without a database, is READY exactly if it had no
      fault, and DEGRADED exactly if it had one. */
  lemma ReadyMeansFaultless(config: Config, events: seq<Event>, n: nat)
    requires n <= |events| && ExpectedRun(config, events)
    requires IsTerminal(Run(config, events, n).phase) && Run(config, events, n).phase != NoHid
    ensures Run(config, events, n).phase == (if Faulted(config, events, n) then Degraded else Ready)
  {
    hide Run, Faulted, ReadsOk, AllReferencesOk, SubscriptionsOk;
    DegradedMeansFault(config, events, n);
    RunHonest(config, events, n);
  }
}
