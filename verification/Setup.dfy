/** The connection setup protocol of ble_client_hid.cpp as a step function over main-loop ticks
    and GATT callbacks. Results of the Bluetooth stack are inputs of the steps; times are real
    milliseconds that the component sees modulo 2^32.

    The field `history` records what was planned and what was done; no step reads it. */
module Setup {
  import opened Integers
  import HidCompiler
  import opened HidDecoder
  import S = Subscription
  import opened SetupPlan

  const PHASE_TIMEOUT_MS: uint32 := 15000
  const MAX_ATTRIBUTE_VALUE_BYTES := 4096

  datatype Phase = Disconnected | WaitingForDiscovery | Inventory | Reading | BuildingProfile
    | WritingProtocolMode | Registering | WaitingForCccd | Ready | Degraded | NoHid

  /** A read that succeeded, with the bytes it delivered. */
  datatype DoneRead = DoneRead(op: ReadOp, bytes: seq<uint8>)

  /** A value that the component asked the stack to write. */
  datatype Write = Write(handle: uint16, value: uint16)

  /** What has been planned, tried and done since the last inventory; `ownWrites` counts the component's
      own CCCD writes of the current attempt. */
  datatype History = History(
    plannedReads: seq<ReadOp>, triedReads: seq<ReadOp>, doneReads: seq<DoneRead>, modeWrites: seq<Write>,
    plannedSubscriptions: seq<Subscription>, triedSubscriptions: seq<Subscription>,
    doneSubscriptions: seq<Subscription>, cccdWrites: seq<Write>, ownWrites: nat)

  const NO_HISTORY := History([], [], [], [], [], [], [], [], 0)

  datatype State = State(
    phase: Phase, phaseStarted: nat, degraded: bool, congested: bool,
    services: Services, contexts: Contexts, sources: map<uint16, Source>, reportHandles: set<uint16>,
    readQueue: seq<ReadOp>, activeRead: Option<ReadOp>,
    protocolWrites: seq<uint16>,
    subscriptionQueue: seq<Subscription>, activeSubscription: Option<Subscription>, attempt: S.Attempt,
    history: History)

  /** `reset_connection_state_` and a transition. */
  function Fresh(phase: Phase, now: nat): State {
    State(phase, now, false, false, [], map[], map[], {}, [], None, [], [], None, S.NO_ATTEMPT, NO_HISTORY)
  }

  /** The answer of the stack to the one request a tick makes, and the result of the inventory. */
  datatype Answer = Answer(scheduled: bool, services: Services, complete: bool, limited: bool)

  datatype Event =
    | Connect(now: nat)
    | Disconnect(now: nat)
    | DiscoveryComplete(now: nat, success: bool)
    | ReadDone(now: nat, handle: uint16, success: bool, value: Buffer)
    | RegistrationDone(now: nat, handle: uint16, success: bool)
    | CccdWriteDone(now: nat, handle: uint16, success: bool, scheduled: bool)
    | Congestion(now: nat, congested: bool)
    | Tick(now: nat, later: nat, answer: Answer)
  {
    /** Real time of the event's last reading of millis(). */
    function End(): nat { if Tick? then later else now }
  }

  predicate IsTerminal(phase: Phase) { phase == Ready || phase == Degraded || phase == NoHid }

  predicate IsBusy(phase: Phase) {
    phase in {Inventory, Reading, BuildingProfile, WritingProtocolMode, Registering, WaitingForCccd}
  }

  function Transition(s: State, phase: Phase, now: nat): State {
    s.(phase := phase, phaseStarted := now)
  }

  function MarkDegraded(s: State): State { s.(degraded := true) }

  function DegradedIf(s: State, required: bool): State { if required then MarkDegraded(s) else s }

  function Finalize(s: State, now: nat): State {
    Transition(s, if s.degraded then Degraded else Ready, now)
  }

  // ---------- inventory and reads ----------

  function HidContexts(services: Services): Contexts {
    map i: uint16 | 0 <= i < |services| && services[i].uuid == HID_SERVICE :: Context(0, None)
  }

  /** The inventory delivers all services, or those in front of an error. */
  function TakeInventory(config: Config, s: State, now: nat, answer: Answer): State {
    var services := answer.services;
    var t := DegradedIf(s.(services := services, contexts := HidContexts(services)),
                        answer.limited || |services| >= MAX_SERVICES);
    if !answer.complete || services == [] then Finalize(MarkDegraded(t), now)
    else if t.contexts == map[] then Transition(t, NoHid, now)
    else
      var plan := PlanReads(config, services, |services|);
      Transition(DegradedIf(t.(readQueue := plan.ops, history := NO_HISTORY.(plannedReads := plan.ops)), plan.overflow),
                 Reading, now)
  }

  /** `start_next_read_`. */
  function StartNextRead(s: State, now: nat, scheduled: bool): State {
    if s.activeRead.Some? || s.congested then s
    else if s.readQueue == [] then Transition(s, BuildingProfile, now)
    else
      var op := s.readQueue[0];
      var t := s.(readQueue := s.readQueue[1..],
                  history := s.history.(triedReads := s.history.triedReads + [op]));
      if scheduled then t.(activeRead := Some(op)) else DegradedIf(t, op.required)
  }

  /** Lengths that `process_read_value_` accepts for values it only logs. */
  predicate LengthFits(purpose: Purpose, length: nat) {
    match purpose
    case Appearance => length == 2
    case PreferredParameters => length == 8
    case Battery => length >= 1
    case PnpId => length >= 7
    case ExternalReference => length == 2
    case _ => true
  }

  function ProcessReportReference(s: State, op: ReadOp, bytes: seq<uint8>): State {
    var named := SourceOf(s.sources, op.characteristicHandle)
                   .(serviceInstance := op.service, handle := op.characteristicHandle, uuid := HID_REPORT);
    if |bytes| == 2 then
      var source := named.(reportId := bytes[0], hasReportId := true, reportType := bytes[1], hasReportType := true);
      DegradedIf(s.(sources := s.sources[op.characteristicHandle := source]), bytes[1] < 1 || bytes[1] > 3)
    else
      MarkDegraded(s.(sources := s.sources[op.characteristicHandle := named]))
  }

  /** `process_read_value_`. */
  function ProcessReadValue(s: State, op: ReadOp, bytes: seq<uint8>): State {
    match op.purpose
    case Information => DegradedIf(s, op.service !in s.contexts || |bytes| != 4)
    case ProtocolMode =>
      if op.service in s.contexts && |bytes| == 1
      then
        var context := s.contexts[op.service].(protocolModeHandle := op.characteristicHandle);
        s.(contexts := s.contexts[op.service := context])
      else MarkDegraded(s)
    case ReportMap =>
      if op.service !in s.contexts || |bytes| == 0 then MarkDegraded(s)
      else
        var reportMap := HidCompiler.Compile(bytes);
        DegradedIf(s.(contexts := s.contexts[op.service := s.contexts[op.service].(reportMap := reportMap)]),
                   reportMap.None?)
    case ReportReference => ProcessReportReference(s, op, bytes)
    case _ => DegradedIf(s, !LengthFits(op.purpose, |bytes|))
  }

  /** A read callback: `finish_active_read_` behind the handle check of the dispatcher. */
  function FinishRead(s: State, handle: uint16, success: bool, value: Buffer): State {
    if s.activeRead.None? || s.activeRead.value.handle != handle then s
    else
      var op, t := s.activeRead.value, s.(activeRead := None);
      var length := if value.Null? then value.length else |value.bytes|;
      if !success || length > MAX_ATTRIBUTE_VALUE_BYTES then DegradedIf(t, op.required)
      else if value.Null? && value.length != 0 then DegradedIf(t, op.required)
      else
        var bytes := if value.Null? then [] else value.bytes;
        ProcessReadValue(t, op, bytes).(history := t.history.(doneReads := t.history.doneReads + [DoneRead(op, bytes)]))
  }

  // ---------- profile and protocol mode ----------

  function BuildProfile(s: State): State {
    var p := BuildProfiles(Profile(s.sources, s.contexts, s.reportHandles, s.degraded), s.services, |s.services|);
    s.(sources := p.sources, contexts := p.contexts, reportHandles := p.handles, degraded := p.degraded)
  }

  /** Protocol Mode handles of the first `n` services, in their order. */
  function ProtocolHandles(contexts: Contexts, n: uint16): seq<uint16> {
    if n == 0 then []
    else
      ProtocolHandles(contexts, n - 1)
        + (if n - 1 in contexts && contexts[n - 1].protocolModeHandle != 0
           then [contexts[n - 1].protocolModeHandle] else [])
  }

  /** The Protocol Mode value of a policy: boot protocol is 0, report protocol is 1. */
  function ModeOf(policy: Policy): uint16 { if policy == BootMode then 0 else 1 }

  /** Behind the profile, the handles to write are collected. */
  function PlanWrites(config: Config, s: State, now: nat): State {
    if s.phase != BuildingProfile then s
    else
      var handles := if config.policy == Unchanged then [] else ProtocolHandles(s.contexts, |s.services|);
      Transition(s.(protocolWrites := handles), WritingProtocolMode, now)
  }

  function StartRegistering(config: Config, s: State, now: nat): State {
    var plan := PlanSubscriptions(config, s.services, |s.services|);
    Transition(DegradedIf(s.(subscriptionQueue := plan.list,
                             history := s.history.(plannedSubscriptions := plan.list)),
                          plan.overflow), Registering, now)
  }

  function TakeWrite(config: Config, s: State, scheduled: bool): State
    requires s.protocolWrites != []
  {
    var write := Write(s.protocolWrites[0], ModeOf(config.policy));
    DegradedIf(s.(protocolWrites := s.protocolWrites[1..],
                  history := s.history.(modeWrites := s.history.modeWrites + [write])), !scheduled)
  }

  /** `start_protocol_mode_write_`. */
  function StartProtocolWrite(config: Config, s: State, now: nat, scheduled: bool): State {
    var t := PlanWrites(config, s, now);
    if t.protocolWrites == [] then StartRegistering(config, t, now) else TakeWrite(config, t, scheduled)
  }

  // ---------- subscriptions ----------

  function DropAttempt(s: State): State {
    s.(activeSubscription := None, attempt := S.NO_ATTEMPT)
  }

  /** The active subscription failed behind its registration; the loop goes on with the next one. */
  function FailAttempt(s: State, sub: Subscription, now: nat): State {
    Transition(DropAttempt(DegradedIf(s, sub.required)), Registering, now)
  }

  function CompleteAttempt(s: State, sub: Subscription, now: nat): State {
    Transition(DropAttempt(s.(history := s.history.(doneSubscriptions := s.history.doneSubscriptions + [sub]))),
               Registering, now)
  }

  /** `start_next_subscription_`. */
  function StartNextSubscription(s: State, now: nat, scheduled: bool): State {
    if s.activeSubscription.Some? || s.congested then s
    else if s.subscriptionQueue == [] then Finalize(s, now)
    else
      var sub := s.subscriptionQueue[0];
      var t := s.(subscriptionQueue := s.subscriptionQueue[1..],
                  history := s.history.(triedSubscriptions := s.history.triedSubscriptions + [sub]));
      if sub.cccdHandle == 0 || !scheduled then DropAttempt(DegradedIf(t, sub.required))
      else
        t.(activeSubscription := Some(sub), attempt := S.Begun(sub.characteristicHandle, sub.cccdHandle),
           history := t.history.(ownWrites := 0))
  }

  /** `handle_registration_result_`. */
  function FinishRegistration(s: State, handle: uint16, success: bool, now: nat): State {
    var decision := S.RegistrationDecision(s.attempt, handle, success);
    var t := s.(attempt := S.Registered(s.attempt, handle, success, Wrapped(now)));
    if s.activeSubscription.None? || decision == S.Unmatched then t
    else if decision == S.Failed then FailAttempt(t, s.activeSubscription.value, now)
    else Transition(t, WaitingForCccd, now)
  }

  /** CCCD values: notifications are bit 0, indications are bit 1. */
  function CountWrite(history: History, sub: Subscription): History {
    history.(ownWrites := history.ownWrites + 1,
             cccdWrites := history.cccdWrites + [Write(sub.cccdHandle, if sub.canNotify then 1 else 2)])
  }

  /** `write_current_cccd_`: the component's own CCCD write. */
  function WriteCccd(s: State, now: nat, scheduled: bool): State {
    if s.activeSubscription.None? then s
    else
      var sub := s.activeSubscription.value;
      var t := s.(attempt := s.attempt.(ownWriteAttempted := true),
                  history := CountWrite(s.history, sub));
      if scheduled then t else FailAttempt(t, sub, now)
  }

  /** `handle_cccd_result_`; a failed write by the framework is retried on the spot. */
  function FinishCccdWrite(s: State, handle: uint16, success: bool, now: nat, scheduled: bool): State {
    var decision := S.CccdDecision(s.attempt, handle, success);
    var t := s.(attempt := S.CccdWritten(s.attempt, handle, success));
    if s.activeSubscription.None? || decision == S.Unmatched then t
    else if decision == S.Complete then CompleteAttempt(t, s.activeSubscription.value, now)
    else if decision == S.RetryCccd then WriteCccd(t, now, scheduled)
    else FailAttempt(t, s.activeSubscription.value, now)
  }

  // ---------- the loop ----------

  /** The phase switch of `loop`. */
  function Advance(config: Config, s: State, now: nat, answer: Answer): State {
    match s.phase
    case Inventory => TakeInventory(config, s, now, answer)
    case Reading => StartNextRead(s, now, answer.scheduled)
    case BuildingProfile => StartProtocolWrite(config, BuildProfile(s), now, answer.scheduled)
    case WritingProtocolMode => StartProtocolWrite(config, s, now, answer.scheduled)
    case Registering => StartNextSubscription(s, now, answer.scheduled)
    case WaitingForCccd =>
      if s.activeSubscription.Some? && S.FallbackDue(s.attempt, Wrapped(now))
      then WriteCccd(s, now, answer.scheduled) else s
    case _ => s
  }

  predicate TimedOut(s: State, now: nat) {
    IsBusy(s.phase) && Elapsed(Wrapped(now), Wrapped(s.phaseStarted), PHASE_TIMEOUT_MS)
  }

  /** `handle_phase_timeout_`. */
  function CheckTimeout(s: State, now: nat): State {
    if !TimedOut(s, now) then s
    else
      var t := MarkDegraded(s);
      if s.phase == Reading then Transition(t.(activeRead := None, readQueue := []), BuildingProfile, now)
      else if s.phase == Registering || s.phase == WaitingForCccd then
        Finalize(DropAttempt(t).(subscriptionQueue := []), now)
      else Finalize(t, now)
  }

  function Step(config: Config, s: State, event: Event): State {
    match event
    case Connect(now) => Fresh(WaitingForDiscovery, now)
    case Disconnect(now) => Fresh(Disconnected, now)
    case DiscoveryComplete(now, success) =>
      if success then Transition(s, Inventory, now) else Finalize(MarkDegraded(s), now)
    case ReadDone(_, handle, success, value) => FinishRead(s, handle, success, value)
    case RegistrationDone(now, handle, success) => FinishRegistration(s, handle, success, now)
    case CccdWriteDone(now, handle, success, scheduled) => FinishCccdWrite(s, handle, success, now, scheduled)
    case Congestion(_, congested) => s.(congested := congested)
    case Tick(now, later, answer) => CheckTimeout(Advance(config, s, now, answer), later)
  }
}
