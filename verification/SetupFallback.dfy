/** When the component writes a CCCD itself, over whole runs: from 250 ms into the wait on, unless the
    framework's own write has failed before. */
module SetupFallback {
  import opened Integers
  import S = Subscription
  import opened SetupPlan
  import opened Setup
  import opened SetupProofs

  /** While the first write is awaited, the fallback time is 250 ms into the phase. */
  ghost predicate FallbackSet(s: State) {
    s.phase == WaitingForCccd && !s.attempt.ownWriteAttempted ==>
      s.attempt.fallbackAtMs == Wrapped(s.phaseStarted + S.CCCD_FALLBACK_DELAY_MS)
  }

  lemma DelayWraps(now: nat)
    ensures (Wrapped(now) + S.CCCD_FALLBACK_DELAY_MS) % 0x1_0000_0000 == Wrapped(now + S.CCCD_FALLBACK_DELAY_MS)
  {
  }

  lemma RegistrationSetsFallback(s: State, handle: uint16, success: bool, now: nat)
    requires Orderly(s) && FallbackSet(s)
    ensures FallbackSet(FinishRegistration(s, handle, success, now))
  {
    hide Wrapped;
    DelayWraps(now);
  }

  lemma WriteKeepsFallback(s: State, now: nat, scheduled: bool)
    requires Orderly(s) && s.phase == WaitingForCccd
    ensures FallbackSet(WriteCccd(s, now, scheduled))
  {
    hide Wrapped;
  }

  lemma CccdKeepsFallback(s: State, handle: uint16, success: bool, now: nat, scheduled: bool)
    requires Orderly(s) && FallbackSet(s)
    ensures FallbackSet(FinishCccdWrite(s, handle, success, now, scheduled))
  {
    hide FinishCccdWrite, WriteCccd, Wrapped, S.CccdDecision, Orderly;
    CccdCases(s, handle, success, now, scheduled);
    if s.phase == WaitingForCccd {
      WriteKeepsFallback(s, now, scheduled);
    }
  }

  lemma AdvanceKeepsFallback(config: Config, s: State, now: nat, answer: Answer)
    requires Orderly(s) && FallbackSet(s)
    ensures FallbackSet(Advance(config, s, now, answer))
  {
    hide TakeInventory, BuildProfile, StartProtocolWrite, WriteCccd, Wrapped, S.FallbackDue, Orderly;
    AdvanceOrderly(config, s, now, answer);
    match s.phase {
      case Inventory => InventoryElsewhere(config, s, now, answer);
      case BuildingProfile =>
        BuildOrderly(s);
        ProtocolWriteElsewhere(config, BuildProfile(s), now, answer.scheduled);
      case WritingProtocolMode => ProtocolWriteElsewhere(config, s, now, answer.scheduled);
      case WaitingForCccd => WriteKeepsFallback(s, now, answer.scheduled);
      case _ =>
    }
  }

  lemma InventoryElsewhere(config: Config, s: State, now: nat, answer: Answer)
    ensures TakeInventory(config, s, now, answer).phase != WaitingForCccd
  {
    hide PlanReads, HidContexts;
  }

  lemma ProtocolWriteElsewhere(config: Config, s: State, now: nat, scheduled: bool)
    requires s.phase == BuildingProfile || s.phase == WritingProtocolMode
    ensures StartProtocolWrite(config, s, now, scheduled).phase != WaitingForCccd
  {
    hide StartProtocolWrite;
    ProtocolWriteCases(config, s, now, scheduled);
  }

  lemma ReadKeepsFallback(s: State, handle: uint16, success: bool, value: Buffer)
    requires Orderly(s) && FallbackSet(s)
    ensures FallbackSet(FinishRead(s, handle, success, value))
  {
    hide ProcessReadValue, Wrapped;
    if s.activeRead.Some? {
      ProcessFrame(s.(activeRead := None), s.activeRead.value, if value.Null? then [] else value.bytes);
    }
  }

  lemma TimeoutKeepsFallback(s: State, now: nat)
    requires FallbackSet(s)
    ensures FallbackSet(CheckTimeout(s, now))
  {
    hide TimedOut, Wrapped;
  }

  lemma StepKeepsFallback(config: Config, s: State, event: Event)
    requires Orderly(s) && Expected(s, event) && FallbackSet(s)
    ensures FallbackSet(Step(config, s, event))
  {
    hide Advance, FinishRead, FinishRegistration, FinishCccdWrite, CheckTimeout, Orderly, Wrapped;
    match event
    case ReadDone(_, handle, success, value) => ReadKeepsFallback(s, handle, success, value);
    case RegistrationDone(now, handle, success) => RegistrationSetsFallback(s, handle, success, now);
    case CccdWriteDone(now, handle, success, scheduled) => CccdKeepsFallback(s, handle, success, now, scheduled);
    case Tick(now, later, answer) =>
      AdvanceKeepsFallback(config, s, now, answer);
      TimeoutKeepsFallback(Advance(config, s, now, answer), later);
    case _ =>
  }

  lemma {:induction false} RunKeepsFallback(config: Config, events: seq<Event>, n: nat)
    requires n <= |events| && ExpectedRun(config, events)
    ensures FallbackSet(Run(config, events, n))
  {
    hide Step, Orderly, Expected, FallbackSet;
    if n == 0 {
      FreshWaitsForNothing();
    } else {
      RunKeepsFallback(config, events, n - 1);
      RunOrderly(config, events, n - 1);
      StepKeepsFallback(config, Run(config, events, n - 1), events[n - 1]);
    }
  }

  lemma FreshWaitsForNothing()
    ensures FallbackSet(Fresh(Disconnected, 0))
  {
  }

  /** In every run, a tick in the wait for a CCCD makes the component's own write exactly if it made none
      before and the tick comes 250 ms into the wait or later, across wraps of the millisecond clock; it
      does nothing otherwise. */
  lemma OwnWriteAtDelay(config: Config, events: seq<Event>, n: nat, now: nat, answer: Answer)
    requires n <= |events| && ExpectedRun(config, events) && Run(config, events, n).phase == WaitingForCccd
    requires var started := Run(config, events, n).phaseStarted;
      started <= now < started + S.CCCD_FALLBACK_DELAY_MS + 0x8000_0000
    ensures var s := Run(config, events, n);
      var due := s.history.ownWrites == 0 && now >= s.phaseStarted + S.CCCD_FALLBACK_DELAY_MS;
      Advance(config, s, now, answer) == if due then WriteCccd(s, now, answer.scheduled) else s
  {
    hide Run, WriteCccd;
    RunOrderly(config, events, n);
    RunKeepsFallback(config, events, n);
    var s := Run(config, events, n);
    if !s.attempt.ownWriteAttempted {
      S.DueFromDelayOn(s.attempt, s.phaseStarted, now);
    }
  }
}
