/** Connection setup ends: a rank never grows, every timeout lowers it, and so a terminal phase is
    reached within a time linear in the number of planned subscriptions. */
module SetupTermination {
  import opened Integers
  import S = Subscription
  import opened SetupPlan
  import opened Setup
  import opened SetupProofs

  /** How many phase starts are still possible. */
  function Rank(config: Config, s: State): nat {
    var planned := |PlanSubscriptions(config, s.services, |s.services|).list|;
    match s.phase
    case Inventory => 2 * MAX_SUBSCRIPTIONS + 6
    case Reading => 2 * planned + 5
    case BuildingProfile => 2 * planned + 4
    case WritingProtocolMode => 2 * planned + 3
    case Registering => 2 * (|s.subscriptionQueue| + if s.activeSubscription.Some? then 1 else 0) + 1
    case WaitingForCccd => 2 * |s.subscriptionQueue| + 2
    case _ => 0
  }

  predicate InSetup(phase: Phase) { IsBusy(phase) || IsTerminal(phase) }

  /** The rank does not grow, it drops whenever the phase timer is restarted, and the timer is only
      restarted with the time of the step. */
  predicate Progress(config: Config, s: State, t: State, earliest: nat, latest: nat) {
    && Rank(config, t) <= Rank(config, s)
    && (t.phaseStarted != s.phaseStarted ==>
          Rank(config, t) < Rank(config, s) && earliest <= t.phaseStarted <= latest)
    && (InSetup(s.phase) ==> InSetup(t.phase))
  }

  /** Events that belong to one setup; the others start or abandon it. */
  predicate Within(event: Event) {
    !event.Connect? && !event.Disconnect? && !event.DiscoveryComplete?
  }

  lemma InventoryProgress(config: Config, s: State, now: nat, answer: Answer)
    requires s.phase == Inventory
    ensures Progress(config, s, TakeInventory(config, s, now, answer), now, now)
  {
    hide PlanReads, HidContexts, PlanSubscriptions;
    var t := TakeInventory(config, s, now, answer);
    SubscriptionsWithin(config, t.services, |t.services|);
  }

  lemma ReadingProgress(config: Config, s: State, now: nat, scheduled: bool)
    requires s.phase == Reading
    ensures Progress(config, s, StartNextRead(s, now, scheduled), now, now)
  {
    hide PlanSubscriptions;
  }

  lemma BuildingProgress(config: Config, s: State)
    requires Orderly(s) && s.phase == BuildingProfile
    ensures Rank(config, BuildProfile(s)) == Rank(config, s)
  {
    hide BuildProfile;
    BuildOrderly(s);
  }

  lemma WritingProgress(config: Config, s: State, now: nat, scheduled: bool)
    requires Orderly(s) && (s.phase == BuildingProfile || s.phase == WritingProtocolMode)
    ensures Progress(config, s, StartProtocolWrite(config, s, now, scheduled), now, now)
  {
    hide StartProtocolWrite, PlanSubscriptions;
    ProtocolWriteCases(config, s, now, scheduled);
  }

  lemma SubscribeProgress(config: Config, s: State, now: nat, scheduled: bool)
    requires s.phase == Registering
    ensures Progress(config, s, StartNextSubscription(s, now, scheduled), now, now)
  {
    hide PlanSubscriptions;
  }

  lemma FailProgress(config: Config, s: State, sub: Subscription, now: nat)
    requires (s.phase == Registering && s.activeSubscription.Some?) || s.phase == WaitingForCccd
    ensures Progress(config, s, FailAttempt(s, sub, now), now, now)
    ensures Progress(config, s, CompleteAttempt(s, sub, now), now, now)
  {
    hide PlanSubscriptions;
  }

  lemma WriteCccdProgress(config: Config, s: State, now: nat, scheduled: bool)
    requires s.phase == WaitingForCccd
    ensures Progress(config, s, WriteCccd(s, now, scheduled), now, now)
  {
    hide PlanSubscriptions;
  }

  lemma AdvanceProgress(config: Config, s: State, now: nat, answer: Answer)
    requires Orderly(s)
    ensures Progress(config, s, Advance(config, s, now, answer), now, now)
  {
    hide TakeInventory, StartNextRead, BuildProfile, StartProtocolWrite, StartNextSubscription, WriteCccd, Orderly,
      Rank;
    match s.phase {
      case Inventory => InventoryProgress(config, s, now, answer);
      case Reading => ReadingProgress(config, s, now, answer.scheduled);
      case BuildingProfile =>
        BuildOrderly(s);
        BuildingProgress(config, s);
        WritingProgress(config, BuildProfile(s), now, answer.scheduled);
      case WritingProtocolMode => WritingProgress(config, s, now, answer.scheduled);
      case Registering => SubscribeProgress(config, s, now, answer.scheduled);
      case WaitingForCccd => WriteCccdProgress(config, s, now, answer.scheduled);
      case _ =>
    }
  }

  /** A phase timeout strictly lowers the rank. */
  lemma TimeoutProgress(config: Config, s: State, now: nat)
    ensures Progress(config, s, CheckTimeout(s, now), now, now)
    ensures TimedOut(s, now) ==> Rank(config, CheckTimeout(s, now)) < Rank(config, s)
  {
    hide PlanSubscriptions;
  }

  lemma ReadProgress(config: Config, s: State, handle: uint16, success: bool, value: Buffer, at: nat)
    ensures Progress(config, s, FinishRead(s, handle, success, value), at, at)
  {
    hide PlanSubscriptions, ProcessReadValue;
    if s.activeRead.Some? {
      ProcessFrame(s.(activeRead := None), s.activeRead.value, if value.Null? then [] else value.bytes);
    }
  }

  lemma RegistrationProgress(config: Config, s: State, handle: uint16, success: bool, now: nat)
    requires Orderly(s)
    ensures Progress(config, s, FinishRegistration(s, handle, success, now), now, now)
  {
    hide PlanSubscriptions;
  }

  lemma CccdProgress(config: Config, s: State, handle: uint16, success: bool, now: nat, scheduled: bool)
    requires Orderly(s)
    ensures Progress(config, s, FinishCccdWrite(s, handle, success, now, scheduled), now, now)
  {
    hide FinishCccdWrite, WriteCccd, CompleteAttempt, FailAttempt, S.CccdDecision, Orderly, Rank;
    CccdCases(s, handle, success, now, scheduled);
    if s.activeSubscription.Some? && S.CccdDecision(s.attempt, handle, success) != S.Unmatched {
      FailProgress(config, s, s.activeSubscription.value, now);
      WriteCccdProgress(config, s, now, scheduled);
    }
  }

  /** No event of a setup raises the rank, whatever the peripheral and the stack do. */
  lemma StepProgress(config: Config, s: State, event: Event)
    requires Orderly(s) && Within(event) && event.now <= event.End()
    ensures Progress(config, s, Step(config, s, event), event.now, event.End())
  {
    hide Advance, FinishRead, FinishRegistration, FinishCccdWrite, CheckTimeout, Orderly, Rank;
    match event
    case Tick(now, later, answer) =>
      AdvanceProgress(config, s, now, answer);
      TimeoutProgress(config, Advance(config, s, now, answer), later);
    case ReadDone(now, handle, success, value) => ReadProgress(config, s, handle, success, value, now);
    case RegistrationDone(now, handle, success) => RegistrationProgress(config, s, handle, success, now);
    case CccdWriteDone(now, handle, success, scheduled) => CccdProgress(config, s, handle, success, now, scheduled);
    case Congestion(now, congested) => CongestionProgress(config, s, congested, now);
  }

  lemma CongestionProgress(config: Config, s: State, congested: bool, at: nat)
    ensures Progress(config, s, s.(congested := congested), at, at)
  {
    hide PlanSubscriptions;
  }

  // ---------- real time ----------

  /** Real time at the end of the last loop tick among the first `n` events, or `start`. */
  function LastTick(start: nat, events: seq<Event>, n: nat): nat
    requires n <= |events|
  {
    if n == 0 then start else if events[n - 1].Tick? then events[n - 1].later else LastTick(start, events, n - 1)
  }

  function Clock(start: nat, events: seq<Event>, n: nat): nat
    requires n <= |events|
  {
    if n == 0 then start else events[n - 1].End()
  }

  /** Time goes forward, and the main loop runs at least every `gap` milliseconds: no event ends
      later than that after the last tick. */
  ghost predicate Punctual(start: nat, events: seq<Event>, gap: nat) {
    forall i | 0 <= i < |events| ::
      Clock(start, events, i) <= events[i].now <= events[i].End() <= LastTick(start, events, i) + gap
  }

  ghost predicate AllWithin(events: seq<Event>) {
    forall e | e in events :: Within(e)
  }

  /** Latest real time at which a phase of rank `rank` can have started. */
  function Budget(start: nat, total: nat, rank: nat, gap: nat): int {
    start + (total - rank) * (PHASE_TIMEOUT_MS + gap)
  }

  lemma ProductBound(k: nat, d: nat)
    ensures k * d >= 0 && (k > 0 ==> k * d >= d)
  {
    if k > 0 {
      assert k * d == (k - 1) * d + d;
    }
  }

  lemma Scaled(a: int, b: int, d: nat)
    requires a >= b
    ensures a * d >= b * d && (a > b ==> a * d >= b * d + d)
  {
    ProductBound(a - b, d);
    assert (b + (a - b)) * d == b * d + (a - b) * d;
  }

  lemma BudgetGrows(start: nat, total: nat, before: nat, after: nat, gap: nat)
    requires after <= before
    ensures Budget(start, total, before, gap) <= Budget(start, total, after, gap)
    ensures after < before
      ==> Budget(start, total, before, gap) + PHASE_TIMEOUT_MS + gap <= Budget(start, total, after, gap)
  {
    Scaled(total - after, total - before, PHASE_TIMEOUT_MS + gap);
  }

  /** Setup at real time `clock`, where the last loop iteration ended at `tick`: the phase was not
      overdue then, and it has started within its budget. */
  ghost predicate OnTime(config: Config, s: State, start: nat, total: nat, tick: nat, clock: nat, gap: nat) {
    && InSetup(s.phase) && Rank(config, s) <= total
    && (IsBusy(s.phase) ==>
          && s.phaseStarted <= clock
          && tick < s.phaseStarted + PHASE_TIMEOUT_MS
          && s.phaseStarted <= Budget(start, total, Rank(config, s), gap))
  }

  lemma BusyHasRank(config: Config, s: State)
    requires InSetup(s.phase)
    ensures IsBusy(s.phase) <==> Rank(config, s) > 0
  {
    hide PlanSubscriptions;
  }

  /** A step keeps the budget: a phase that starts now follows one that was not overdue. */
  lemma StepInBudget(config: Config, s: State, t: State, start: nat, total: nat, tick: nat, clock: nat, gap: nat,
                     earliest: nat, latest: nat)
    requires OnTime(config, s, start, total, tick, clock, gap) && Progress(config, s, t, earliest, latest)
    requires tick <= clock <= earliest <= latest <= tick + gap
    ensures OnTime(config, t, start, total, tick, latest, gap)
  {
    hide Budget, Rank;
    BusyHasRank(config, s);
    BusyHasRank(config, t);
    BudgetGrows(start, total, Rank(config, s), Rank(config, t), gap);
  }

  /** Behind the timeout check a busy phase is not overdue. */
  lemma CheckedPhase(s: State, now: nat)
    requires s.phaseStarted <= now < s.phaseStarted + 0x1_0000_0000
    ensures IsBusy(CheckTimeout(s, now).phase) ==> now < CheckTimeout(s, now).phaseStarted + PHASE_TIMEOUT_MS
  {
    ElapsedIsRealTime(s.phaseStarted, now, PHASE_TIMEOUT_MS);
  }

  lemma CheckNeedsBusy(s: State, now: nat)
    requires !IsBusy(s.phase)
    ensures CheckTimeout(s, now) == s
  {
  }

  lemma TickOnTime(config: Config, s: State, event: Event, start: nat, total: nat, tick: nat, clock: nat, gap: nat)
    requires Orderly(s) && event.Tick? && OnTime(config, s, start, total, tick, clock, gap)
    requires tick <= clock <= event.now <= event.later <= tick + gap && PHASE_TIMEOUT_MS + gap < 0x1_0000_0000
    ensures OnTime(config, Step(config, s, event), start, total, event.later, event.later, gap)
  {
    hide Advance, CheckTimeout, Orderly, Rank, Budget;
    var u := Advance(config, s, event.now, event.answer);
    AdvanceProgress(config, s, event.now, event.answer);
    StepInBudget(config, s, u, start, total, tick, clock, gap, event.now, event.now);
    TimeoutProgress(config, u, event.later);
    StepInBudget(config, u, CheckTimeout(u, event.later), start, total, tick, event.now, gap, event.later, event.later);
    if IsBusy(u.phase) {
      CheckedPhase(u, event.later);
    } else {
      CheckNeedsBusy(u, event.later);
    }
  }

  lemma StepOnTime(config: Config, s: State, event: Event, start: nat, total: nat, tick: nat, clock: nat, gap: nat)
    requires Orderly(s) && Within(event) && OnTime(config, s, start, total, tick, clock, gap)
    requires tick <= clock <= event.now <= event.End() <= tick + gap && PHASE_TIMEOUT_MS + gap < 0x1_0000_0000
    ensures OnTime(config, Step(config, s, event), start, total, if event.Tick? then event.later else tick,
                   event.End(), gap)
  {
    hide Orderly, OnTime, Step;
    if event.Tick? {
      TickOnTime(config, s, event, start, total, tick, clock, gap);
    } else {
      StepProgress(config, s, event);
      StepInBudget(config, s, Step(config, s, event), start, total, tick, clock, gap, event.now, event.End());
    }
  }

  lemma {:induction false} TickBeforeClock(start: nat, events: seq<Event>, n: nat, gap: nat)
    requires n <= |events| && Punctual(start, events, gap)
    ensures LastTick(start, events, n) <= Clock(start, events, n)
  {
    if n > 0 {
      TickBeforeClock(start, events, n - 1, gap);
    }
  }

  lemma {:induction false} RunOnTime(config: Config, s: State, events: seq<Event>, n: nat, start: nat, gap: nat)
    requires n <= |events| && Orderly(s) && IsBusy(s.phase) && s.phaseStarted == start
    requires Punctual(start, events, gap) && AllWithin(events) && PHASE_TIMEOUT_MS + gap < 0x1_0000_0000
    ensures Orderly(RunFrom(config, s, events, n))
    ensures OnTime(config, RunFrom(config, s, events, n), start, Rank(config, s),
                   LastTick(start, events, n), Clock(start, events, n), gap)
  {
    hide Orderly, Step, Rank;
    if n > 0 {
      RunOnTime(config, s, events, n - 1, start, gap);
      TickBeforeClock(start, events, n - 1, gap);
      var before, event := RunFrom(config, s, events, n - 1), events[n - 1];
      assert Within(event) && Clock(start, events, n - 1) <= event.now;
      StepOrderly(config, before, event);
      StepOnTime(config, before, event, start, Rank(config, s), LastTick(start, events, n - 1),
                 Clock(start, events, n - 1), gap);
    }
  }

  /** From any busy phase on, and whatever the peripheral and the stack do, setup is in a terminal
      phase as soon as a loop iteration ends Rank * (15 s + gap) after the phase started. */
  lemma SetupSettles(config: Config, s: State, events: seq<Event>, n: nat, gap: nat)
    requires n <= |events| && Orderly(s) && IsBusy(s.phase)
    requires Punctual(s.phaseStarted, events, gap) && AllWithin(events) && PHASE_TIMEOUT_MS + gap < 0x1_0000_0000
    requires LastTick(s.phaseStarted, events, n) >= s.phaseStarted + Rank(config, s) * (PHASE_TIMEOUT_MS + gap)
    ensures IsTerminal(RunFrom(config, s, events, n).phase)
  {
    hide Rank, Orderly, OnTime, RunFrom, LastTick, Clock;
    var start, total := s.phaseStarted, Rank(config, s);
    RunOnTime(config, s, events, n, start, gap);
    BusyIsEarly(config, RunFrom(config, s, events, n), start, total, LastTick(start, events, n),
                Clock(start, events, n), gap);
  }

  /** A phase that is on time can only be busy within the whole budget. */
  lemma BusyIsEarly(config: Config, s: State, start: nat, total: nat, tick: nat, clock: nat, gap: nat)
    requires OnTime(config, s, start, total, tick, clock, gap)
    ensures tick < start + total * (PHASE_TIMEOUT_MS + gap) || IsTerminal(s.phase)
  {
    hide Rank;
    BusyHasRank(config, s);
    if IsBusy(s.phase) {
      Scaled(total, total - Rank(config, s), PHASE_TIMEOUT_MS + gap);
    }
  }

  /** After a successful discovery with nothing in flight this takes at most 262 phase timeouts, across
      any number of wraps of the millisecond counter. */
  lemma DiscoverySettles(config: Config, s: State, now: nat, events: seq<Event>, n: nat, gap: nat)
    requires n <= |events| && Orderly(s) && NoWorkLeft(s)
    requires Punctual(now, events, gap) && AllWithin(events) && PHASE_TIMEOUT_MS + gap < 0x1_0000_0000
    requires LastTick(now, events, n) >= now + 262 * (PHASE_TIMEOUT_MS + gap)
    ensures IsTerminal(RunFrom(config, Step(config, s, DiscoveryComplete(now, true)), events, n).phase)
  {
    var t := Step(config, s, DiscoveryComplete(now, true));
    StepOrderly(config, s, DiscoveryComplete(now, true));
    assert Rank(config, t) == 262;
    SetupSettles(config, t, events, n, gap);
  }
}
