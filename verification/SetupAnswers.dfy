/** What setup knows about reports, in terms of the answers of the peripheral: the reference of each
    characteristic is the last one read for it, as the profile completes it, and the map of each HID
    service is what the last Report Map read for it compiles to. */
module SetupAnswers {
  import opened Integers
  import HidCompiler
  import opened HidSchema
  import S = Subscription
  import opened SetupPlan
  import opened Setup
  import opened SetupProofs
  import opened SetupGrounds
  import opened SetupReferences
  import opened SetupFaults

  /** The read that the event answers, with its bytes. */
  function Answered(s: State, event: Event): Option<DoneRead> {
    if event.ReadDone? && s.activeRead.Some? && s.activeRead.value.handle == event.handle && event.success
       && LengthOf(event.value) <= 4096 && (event.value.Null? ==> event.value.length == 0)
    then Some(DoneRead(s.activeRead.value, if event.value.Null? then [] else event.value.bytes))
    else None
  }

  /** A reference of two bytes replaces what was known; one of another length only names its service. */
  function Referred(r: Option<Reference>, read: DoneRead): Option<Reference> {
    if |read.bytes| == 2 then Some(Reference(read.op.service, read.bytes[0], read.bytes[1]))
    else match r case None => None case Some(known) => Some(known.(service := read.op.service))
  }

  function NextReference(s: State, event: Event, r: Option<Reference>, handle: uint16): Option<Reference> {
    var read := Answered(s, event);
    if Resets(event) then None
    else if read.Some? && read.value.op.purpose == ReportReference && read.value.op.characteristicHandle == handle
    then Referred(r, read.value)
    else if event.Tick? && s.phase == BuildingProfile then Rebuilt(r, s.services, |s.services|, handle)
    else r
  }

  /** What the answers of the connection say about the report of a characteristic. */
  function ReferenceRead(config: Config, events: seq<Event>, n: nat, handle: uint16): Option<Reference>
    requires n <= |events|
  {
    if n == 0 then None
    else NextReference(Run(config, events, n - 1), events[n - 1], ReferenceRead(config, events, n - 1, handle), handle)
  }

  function NextMap(s: State, event: Event, reportMap: Option<Schema>, service: uint16): Option<Schema> {
    var read := Answered(s, event);
    if Resets(event) || (event.Tick? && s.phase == Inventory) then None
    else if read.Some? && read.value.op.purpose == ReportMap && read.value.op.service == service
            && |read.value.bytes| > 0
    then HidCompiler.Compile(read.value.bytes)
    else reportMap
  }

  /** What the last Report Map that was read for a service compiles to. */
  function MapRead(config: Config, events: seq<Event>, n: nat, service: uint16): Option<Schema>
    requires n <= |events|
  {
    if n == 0 then None
    else NextMap(Run(config, events, n - 1), events[n - 1], MapRead(config, events, n - 1, service), service)
  }

  /** The map that setup has stored for a service. */
  function MapOf(contexts: Contexts, service: uint16): Option<Schema> {
    if service in contexts then contexts[service].reportMap else None
  }

  /** The step changes neither what is known about reports nor a report map. */
  ghost predicate Keeps(s: State, t: State) { t.sources == s.sources && SameMaps(s.contexts, t.contexts) }

  lemma ProcessReference(s: State, op: ReadOp, bytes: seq<uint8>, handle: uint16)
    ensures ReferenceOf(ProcessReadValue(s, op, bytes).sources, handle)
      == if op.purpose == ReportReference && op.characteristicHandle == handle
         then Referred(ReferenceOf(s.sources, handle), DoneRead(op, bytes)) else ReferenceOf(s.sources, handle)
  {
    hide HidCompiler.Compile, LengthFits;
  }

  lemma ProcessMap(s: State, op: ReadOp, bytes: seq<uint8>, service: uint16)
    ensures MapOf(ProcessReadValue(s, op, bytes).contexts, service)
      == if op.purpose == ReportMap && op.service == service && service in s.contexts && |bytes| > 0
         then HidCompiler.Compile(bytes) else MapOf(s.contexts, service)
    ensures ProcessReadValue(s, op, bytes).contexts.Keys == s.contexts.Keys
  {
    hide HidCompiler.Compile, LengthFits, SourceOf;
  }

  lemma AnsweredRead(s: State, event: Event)
    requires event.ReadDone?
    ensures var t := FinishRead(s, event.handle, event.success, event.value);
      match Answered(s, event)
      case None => t.sources == s.sources && t.contexts == s.contexts
      case Some(read) =>
        var u := ProcessReadValue(s.(activeRead := None), read.op, read.bytes);
        t.sources == u.sources && t.contexts == u.contexts
  {
    hide ProcessReadValue;
  }

  lemma ReadReference(config: Config, s: State, event: Event, handle: uint16)
    requires event.ReadDone?
    ensures ReferenceOf(Step(config, s, event).sources, handle)
      == NextReference(s, event, ReferenceOf(s.sources, handle), handle)
  {
    hide ProcessReadValue, FinishRead, ReferenceOf, Referred, Answered;
    AnsweredRead(s, event);
    if Answered(s, event).Some? {
      var read := Answered(s, event).value;
      ProcessReference(s.(activeRead := None), read.op, read.bytes, handle);
    }
  }

  lemma ReadMap(config: Config, s: State, event: Event, service: uint16)
    requires event.ReadDone? && service in s.contexts
    ensures MapOf(Step(config, s, event).contexts, service) == NextMap(s, event, MapOf(s.contexts, service), service)
  {
    hide ProcessReadValue, FinishRead, MapOf, Answered, HidCompiler.Compile;
    AnsweredRead(s, event);
    if Answered(s, event).Some? {
      var read := Answered(s, event).value;
      ProcessMap(s.(activeRead := None), read.op, read.bytes, service);
    }
  }

  lemma BuildReferences(s: State, handle: uint16)
    ensures ReferenceOf(BuildProfile(s).sources, handle)
      == Rebuilt(ReferenceOf(s.sources, handle), s.services, |s.services|, handle)
    ensures SameMaps(s.contexts, BuildProfile(s).contexts)
    ensures handle in BuildProfile(s).reportHandles
      <==> handle in s.reportHandles || InputHandle(s.services, |s.services|, handle)
  {
    hide InputHandle, BuildProfiles, ReferenceOf, Rebuilt, SameMaps;
    var p := Profile(s.sources, s.contexts, s.reportHandles, s.degraded);
    ProfilesRelist(p, s.services, |s.services|, handle);
    ProfilesHandles(p, s.services, |s.services|, handle);
    BuildKeeps(p, s.services, |s.services|);
  }

  lemma InventorySources(config: Config, s: State, now: nat, answer: Answer)
    ensures var t := TakeInventory(config, s, now, answer);
      t.sources == s.sources && t.contexts == HidContexts(answer.services)
  {
    hide PlanReads, HidContexts;
  }

  lemma NoMapAtFirst(services: Services, service: uint16)
    ensures MapOf(HidContexts(services), service) == None
  {
  }

  /** Except for the inventory, where all maps are forgotten, and the profile, a tick keeps everything. */
  lemma AdvanceKeeps(config: Config, s: State, now: nat, answer: Answer)
    requires s.phase != Inventory && s.phase != BuildingProfile
    ensures Keeps(s, Advance(config, s, now, answer))
  {
    hide StartNextRead, BuildProfile, StartProtocolWrite, StartNextSubscription, WriteCccd, S.FallbackDue;
    match s.phase {
      case Reading => ReadSources(s, now, answer.scheduled);
      case WritingProtocolMode => ProtocolWriteSources(config, s, now, answer.scheduled);
      case Registering => SubscriptionSources(s, now, answer.scheduled);
      case WaitingForCccd => WriteSources(s, now, answer.scheduled);
      case _ =>
    }
  }

  lemma TickReference(config: Config, s: State, event: Event, handle: uint16)
    requires event.Tick?
    ensures ReferenceOf(Step(config, s, event).sources, handle)
      == NextReference(s, event, ReferenceOf(s.sources, handle), handle)
  {
    hide CheckTimeout, TakeInventory, BuildProfile, StartProtocolWrite, ReferenceOf, Rebuilt, StartNextRead,
      StartNextSubscription, WriteCccd, HidContexts, SameMaps;
    ReadSources(Advance(config, s, event.now, event.answer), event.later, false);
    match s.phase {
      case Inventory => InventorySources(config, s, event.now, event.answer);
      case BuildingProfile =>
        BuildReferences(s, handle);
        BuildPhase(s);
        ProtocolWriteSources(config, BuildProfile(s), event.now, event.answer.scheduled);
      case _ => AdvanceKeeps(config, s, event.now, event.answer);
    }
  }

  lemma BuildPhase(s: State)
    ensures BuildProfile(s).phase == s.phase
  {
    hide BuildProfiles;
  }

  lemma TickMap(config: Config, s: State, event: Event, service: uint16)
    requires event.Tick?
    ensures MapOf(Step(config, s, event).contexts, service) == NextMap(s, event, MapOf(s.contexts, service), service)
  {
    hide CheckTimeout, TakeInventory, BuildProfile, StartProtocolWrite, StartNextRead, StartNextSubscription,
      WriteCccd, HidContexts;
    ReadSources(Advance(config, s, event.now, event.answer), event.later, false);
    match s.phase {
      case Inventory =>
        InventorySources(config, s, event.now, event.answer);
        NoMapAtFirst(event.answer.services, service);
      case BuildingProfile =>
        BuildReferences(s, 0);
        BuildPhase(s);
        ProtocolWriteSources(config, BuildProfile(s), event.now, event.answer.scheduled);
      case _ => AdvanceKeeps(config, s, event.now, event.answer);
    }
  }

  lemma OtherKnowledge(config: Config, s: State, event: Event)
    requires !event.Tick? && !event.ReadDone?
    ensures var t := Step(config, s, event);
      if Resets(event) then t.sources == map[] && t.contexts == map[] else Keeps(s, t)
  {
    hide FinishRegistration, FinishCccdWrite;
    match event
    case RegistrationDone(now, handle, success) => RegistrationSources(s, handle, success, now);
    case CccdWriteDone(now, handle, success, scheduled) => CccdSources(s, handle, success, now, scheduled);
    case _ =>
  }

  lemma StepReference(config: Config, s: State, event: Event, h: uint16)
    ensures ReferenceOf(Step(config, s, event).sources, h) == NextReference(s, event, ReferenceOf(s.sources, h), h)
  {
    hide Step, ReferenceOf, Rebuilt, Referred;
    if event.Tick? {
      TickReference(config, s, event, h);
    } else if event.ReadDone? {
      ReadReference(config, s, event, h);
    } else {
      OtherKnowledge(config, s, event);
      NoReference(h);
    }
  }

  lemma NoReference(h: uint16)
    ensures ReferenceOf(map[], h) == None
  {
  }

  lemma TickContexts(config: Config, s: State, event: Event)
    requires event.Tick? && s.phase != Inventory
    ensures Step(config, s, event).contexts.Keys == s.contexts.Keys
  {
    hide CheckTimeout, BuildProfile, StartProtocolWrite, StartNextRead, StartNextSubscription, WriteCccd;
    ReadSources(Advance(config, s, event.now, event.answer), event.later, false);
    if s.phase == BuildingProfile {
      BuildReferences(s, 0);
      BuildPhase(s);
      ProtocolWriteSources(config, BuildProfile(s), event.now, event.answer.scheduled);
    } else {
      AdvanceKeeps(config, s, event.now, event.answer);
    }
  }

  lemma ReadContexts(config: Config, s: State, event: Event)
    requires event.ReadDone?
    ensures Step(config, s, event).contexts.Keys == s.contexts.Keys
  {
    hide ProcessReadValue, FinishRead, Answered;
    AnsweredRead(s, event);
    if Answered(s, event).Some? {
      var read := Answered(s, event).value;
      ProcessMap(s.(activeRead := None), read.op, read.bytes, 0);
    }
  }

  /** Only an inventory creates contexts. */
  lemma StepMap(config: Config, s: State, event: Event, service: uint16)
    requires service in Step(config, s, event).contexts
    ensures service in s.contexts || (event.Tick? && s.phase == Inventory)
    ensures MapOf(Step(config, s, event).contexts, service) == NextMap(s, event, MapOf(s.contexts, service), service)
  {
    hide Step, HidCompiler.Compile;
    if event.Tick? {
      TickMap(config, s, event, service);
      if s.phase != Inventory {
        TickContexts(config, s, event);
      }
    } else if event.ReadDone? {
      ReadContexts(config, s, event);
      ReadMap(config, s, event, service);
    } else {
      OtherKnowledge(config, s, event);
    }
  }

  /** In every run, what setup knows about the report of a characteristic is what the answers of the
      connection say, completed by the profile. */
  lemma {:induction false} ReferencesAreAnswers(config: Config, events: seq<Event>, n: nat, handle: uint16)
    requires n <= |events|
    ensures ReferenceOf(Run(config, events, n).sources, handle) == ReferenceRead(config, events, n, handle)
  {
    hide Step, ReferenceOf, NextReference;
    if n == 0 {
      NoReference(handle);
    } else {
      ReferencesAreAnswers(config, events, n - 1, handle);
      StepReference(config, Run(config, events, n - 1), events[n - 1], handle);
    }
  }

  /** In every run, the map of a HID service is what the last Report Map that was read for it compiles to,
      also in a degraded setup. */
  lemma {:induction false} MapsAreAnswers(config: Config, events: seq<Event>, n: nat, service: uint16)
    requires n <= |events| && service in Run(config, events, n).contexts
    ensures MapOf(Run(config, events, n).contexts, service) == MapRead(config, events, n, service)
  {
    hide Step, HidCompiler.Compile, Answered;
    if n > 0 {
      StepMap(config, Run(config, events, n - 1), events[n - 1], service);
      if service in Run(config, events, n - 1).contexts {
        MapsAreAnswers(config, events, n - 1, service);
      }
    }
  }

  // ---------- whose notifications are input ----------

  /** The handles of input reports that the profiles of the connection have listed. */
  predicate HandleKnown(config: Config, events: seq<Event>, n: nat, handle: uint16)
    requires n <= |events|
  {
    if n == 0 || Resets(events[n - 1]) then false
    else
      var s := Run(config, events, n - 1);
      || HandleKnown(config, events, n - 1, handle)
      || (events[n - 1].Tick? && s.phase == BuildingProfile && InputHandle(s.services, |s.services|, handle))
  }

  lemma TickHandles(config: Config, s: State, event: Event, handle: uint16)
    requires event.Tick?
    ensures handle in Step(config, s, event).reportHandles
      <==> || handle in s.reportHandles
           || (s.phase == BuildingProfile && InputHandle(s.services, |s.services|, handle))
  {
    hide CheckTimeout, TakeInventory, BuildProfile, StartProtocolWrite, InputHandle, StartNextRead,
      StartNextSubscription, WriteCccd, ReferenceOf, Rebuilt;
    ReadSources(Advance(config, s, event.now, event.answer), event.later, false);
    match s.phase {
      case Inventory => InventoryHandles(config, s, event.now, event.answer);
      case BuildingProfile =>
        BuildReferences(s, handle);
        BuildPhase(s);
        ProtocolWriteSources(config, BuildProfile(s), event.now, event.answer.scheduled);
      case _ => AdvanceHandles(config, s, event.now, event.answer);
    }
  }

  lemma InventoryHandles(config: Config, s: State, now: nat, answer: Answer)
    ensures TakeInventory(config, s, now, answer).reportHandles == s.reportHandles
  {
    hide PlanReads, HidContexts;
  }

  lemma AdvanceHandles(config: Config, s: State, now: nat, answer: Answer)
    requires s.phase != Inventory && s.phase != BuildingProfile
    ensures Advance(config, s, now, answer).reportHandles == s.reportHandles
  {
    hide StartNextRead, BuildProfile, StartProtocolWrite, StartNextSubscription, WriteCccd, S.FallbackDue;
    match s.phase {
      case Reading => ReadSources(s, now, answer.scheduled);
      case WritingProtocolMode => ProtocolWriteSources(config, s, now, answer.scheduled);
      case Registering => SubscriptionSources(s, now, answer.scheduled);
      case WaitingForCccd => WriteSources(s, now, answer.scheduled);
      case _ =>
    }
  }

  lemma OtherHandles(config: Config, s: State, event: Event)
    requires !event.Tick?
    ensures Step(config, s, event).reportHandles == if Resets(event) then {} else s.reportHandles
  {
    hide FinishRead, FinishRegistration, FinishCccdWrite;
    match event
    case ReadDone(_, handle, success, value) => ReadHandles(s, handle, success, value);
    case RegistrationDone(now, handle, success) => RegistrationSources(s, handle, success, now);
    case CccdWriteDone(now, handle, success, scheduled) => CccdSources(s, handle, success, now, scheduled);
    case _ =>
  }

  lemma ReadHandles(s: State, handle: uint16, success: bool, value: Buffer)
    ensures FinishRead(s, handle, success, value).reportHandles == s.reportHandles
  {
    hide ProcessReadValue;
    if s.activeRead.Some? {
      ProcessFrame(s.(activeRead := None), s.activeRead.value, if value.Null? then [] else value.bytes);
    }
  }

  /** In every run, the component takes exactly the notifications of the input characteristics of HID
      services for reports, from the profile on. */
  lemma {:induction false} HandlesAreListed(config: Config, events: seq<Event>, n: nat, handle: uint16)
    requires n <= |events|
    ensures handle in Run(config, events, n).reportHandles <==> HandleKnown(config, events, n, handle)
  {
    hide Step, InputHandle;
    if n > 0 {
      HandlesAreListed(config, events, n - 1, handle);
      if events[n - 1].Tick? {
        TickHandles(config, Run(config, events, n - 1), events[n - 1], handle);
      } else {
        OtherHandles(config, Run(config, events, n - 1), events[n - 1]);
      }
    }
  }
}
