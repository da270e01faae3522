/** What a connection plans from the GATT database of a peripheral: reads, subscriptions and the
    cross-check of report references (`plan_reads_`, `plan_subscriptions_`, `build_hid_profiles_`
    of ble_client_hid.cpp). */
module SetupPlan {
  import opened Integers
  import opened HidSchema
  import opened HidDecoder

  const GAP_SERVICE: uint16 := 0x1800
  const GATT_SERVICE: uint16 := 0x1801
  const HID_SERVICE: uint16 := 0x1812
  const BATTERY_SERVICE: uint16 := 0x180F
  const DEVICE_INFORMATION_SERVICE: uint16 := 0x180A
  const DEVICE_NAME: uint16 := 0x2A00
  const APPEARANCE: uint16 := 0x2A01
  const PREFERRED_PARAMETERS: uint16 := 0x2A04
  const SERVICE_CHANGED: uint16 := 0x2A05
  const DATABASE_HASH: uint16 := 0x2B2A
  const CLIENT_FEATURES: uint16 := 0x2B29
  const SERVER_FEATURES: uint16 := 0x2B3A
  const BATTERY_LEVEL: uint16 := 0x2A19
  const PNP_ID: uint16 := 0x2A50
  const HID_INFORMATION: uint16 := 0x2A4A
  const HID_REPORT_MAP: uint16 := 0x2A4B
  const HID_PROTOCOL_MODE: uint16 := 0x2A4E
  const BOOT_KEYBOARD_OUTPUT: uint16 := 0x2A32
  const USER_DESCRIPTION: uint16 := 0x2901
  const CCCD: uint16 := 0x2902
  const PRESENTATION_FORMAT: uint16 := 0x2904
  const AGGREGATE_FORMAT: uint16 := 0x2905
  const EXTERNAL_REPORT_REFERENCE: uint16 := 0x2907
  const REPORT_REFERENCE: uint16 := 0x2908

  const MAX_READ_OPERATIONS := 384
  const MAX_SUBSCRIPTIONS := 128

  /** UUIDs are the 16-bit ones; 0 stands for any longer UUID, which matches nothing. */
  datatype Descriptor = Descriptor(uuid: uint16, handle: uint16)

  datatype Characteristic = Characteristic(
    uuid: uint16, handle: uint16, canRead: bool, canNotify: bool, canIndicate: bool, descriptors: seq<Descriptor>)

  /** The instance of a service is its index in the inventory. */
  datatype Service = Service(uuid: uint16, characteristics: seq<Characteristic>)

  const MAX_SERVICES := 64

  /** The inventory stops at MAX_SERVICES services. */
  type Services = s: seq<Service> | |s| <= MAX_SERVICES witness []

  datatype Policy = Unchanged | ReportMode | BootMode

  datatype Config = Config(forensic: bool, policy: Policy)

  datatype Purpose = Generic | Name | Appearance | PreferredParameters | Battery | PnpId
    | Information | ReportMap | ProtocolMode | ReportReference | ExternalReference | ReportValue

  datatype ReadOp = ReadOp(handle: uint16, characteristicHandle: uint16, service: uint16, purpose: Purpose,
                           required: bool)

  datatype ReadPlan = ReadPlan(ops: seq<ReadOp>, handles: set<uint16>, overflow: bool)

  /** `add_read_`: each handle once, up to the limit. */
  function AddRead(plan: ReadPlan, op: ReadOp): ReadPlan {
    if op.handle in plan.handles then plan
    else if |plan.ops| >= MAX_READ_OPERATIONS then plan.(overflow := true)
    else plan.(ops := plan.ops + [op], handles := plan.handles + {op.handle})
  }

  predicate IsDeviceInformation(uuid: uint16) {
    uuid in {0x2A23, 0x2A24, 0x2A25, 0x2A26, 0x2A27, 0x2A28, 0x2A29, 0x2A2A, PNP_ID}
  }

  predicate IsReportCharacteristic(uuid: uint16) {
    uuid == HID_REPORT || uuid == BOOT_KEYBOARD || uuid == BOOT_MOUSE
  }

  /** Why a characteristic of a service is read in standard discovery, or None. */
  function StandardPurpose(service: uint16, uuid: uint16): Option<Purpose> {
    if service == GAP_SERVICE then
      if uuid == DEVICE_NAME then Some(Name)
      else if uuid == APPEARANCE then Some(Appearance)
      else if uuid == PREFERRED_PARAMETERS then Some(PreferredParameters)
      else None
    else if service == GATT_SERVICE then
      if uuid in {SERVICE_CHANGED, DATABASE_HASH, CLIENT_FEATURES, SERVER_FEATURES} then Some(Generic) else None
    else if service == DEVICE_INFORMATION_SERVICE then
      if !IsDeviceInformation(uuid) then None else if uuid == PNP_ID then Some(PnpId) else Some(Generic)
    else if service == BATTERY_SERVICE then if uuid == BATTERY_LEVEL then Some(Battery) else None
    else if service == HID_SERVICE then
      if uuid == HID_INFORMATION then Some(Information)
      else if uuid == HID_REPORT_MAP then Some(ReportMap)
      else if uuid == HID_PROTOCOL_MODE then Some(ProtocolMode)
      else if IsReportCharacteristic(uuid) || uuid == BOOT_KEYBOARD_OUTPUT then Some(ReportValue)
      else None
    else None
  }

  function DescriptorPurpose(uuid: uint16): Option<Purpose> {
    if uuid == REPORT_REFERENCE then Some(ReportReference)
    else if uuid == EXTERNAL_REPORT_REFERENCE then Some(ExternalReference)
    else if uuid in {USER_DESCRIPTION, PRESENTATION_FORMAT, AGGREGATE_FORMAT} then Some(Generic)
    else None
  }

  function OrGeneric(purpose: Option<Purpose>): Purpose {
    match purpose case None => Generic case Some(p) => p
  }

  /** The plan after the first `n` descriptors of a characteristic. */
  function PlanDescriptors(config: Config, instance: uint16, c: Characteristic, plan: ReadPlan, n: nat): ReadPlan
    requires n <= |c.descriptors|
  {
    if n == 0 then plan
    else
      var before, d := PlanDescriptors(config, instance, c, plan, n - 1), c.descriptors[n - 1];
      var purpose := DescriptorPurpose(d.uuid);
      if purpose.Some? || config.forensic
      then AddRead(before, ReadOp(d.handle, c.handle, instance, OrGeneric(purpose), false))
      else before
  }

  function PlanCharacteristic(config: Config, service: uint16, instance: uint16, c: Characteristic,
                              plan: ReadPlan): ReadPlan {
    var purpose := StandardPurpose(service, c.uuid);
    var own := if c.canRead && (purpose.Some? || config.forensic)
               then AddRead(plan, ReadOp(c.handle, c.handle, instance, OrGeneric(purpose), purpose == Some(ReportMap)))
               else plan;
    PlanDescriptors(config, instance, c, own, |c.descriptors|)
  }

  function PlanService(config: Config, service: Service, instance: uint16, plan: ReadPlan, n: nat): ReadPlan
    requires n <= |service.characteristics|
  {
    if n == 0 then plan
    else PlanCharacteristic(config, service.uuid, instance, service.characteristics[n - 1],
                            PlanService(config, service, instance, plan, n - 1))
  }

  const NO_READS := ReadPlan([], {}, false)

  /** `plan_reads_` over the first `n` services. */
  function PlanReads(config: Config, services: Services, n: nat): ReadPlan
    requires n <= |services|
  {
    if n == 0 then NO_READS
    else
      PlanService(config, services[n - 1], n - 1, PlanReads(config, services, n - 1), |services[n - 1].characteristics|)
  }

  datatype Subscription = Subscription(characteristicHandle: uint16, cccdHandle: uint16, canNotify: bool,
                                       required: bool)

  datatype SubscriptionPlan = SubscriptionPlan(list: seq<Subscription>, overflow: bool)

  /** Handle of the first CCCD among the descriptors from `i` on, or 0. */
  function CccdHandle(descriptors: seq<Descriptor>, i: nat := 0): uint16
    requires i <= |descriptors|
    decreases |descriptors| - i
  {
    if i == |descriptors| then 0
    else if descriptors[i].uuid == CCCD then descriptors[i].handle
    else CccdHandle(descriptors, i + 1)
  }

  predicate WantsSubscription(config: Config, service: uint16, c: Characteristic) {
    && (c.canNotify || c.canIndicate)
    && ((service == BATTERY_SERVICE && c.uuid == BATTERY_LEVEL)
        || (service == GATT_SERVICE && c.uuid == SERVICE_CHANGED)
        || (service == HID_SERVICE && IsReportCharacteristic(c.uuid))
        || config.forensic)
  }

  /** One service, from characteristic `i` on; the first one past the limit ends it. */
  function SubscribeService(config: Config, service: Service, plan: SubscriptionPlan, i: nat := 0): SubscriptionPlan
    requires i <= |service.characteristics|
    decreases |service.characteristics| - i
  {
    if i == |service.characteristics| then plan
    else
      var c := service.characteristics[i];
      if !WantsSubscription(config, service.uuid, c) then SubscribeService(config, service, plan, i + 1)
      else if |plan.list| >= MAX_SUBSCRIPTIONS then plan.(overflow := true)
      else
        var required := service.uuid == HID_SERVICE && IsReportCharacteristic(c.uuid);
        SubscribeService(config, service,
          plan.(list := plan.list + [Subscription(c.handle, CccdHandle(c.descriptors), c.canNotify, required)]), i + 1)
  }

  const NO_SUBSCRIPTIONS := SubscriptionPlan([], false)

  /** `plan_subscriptions_` over the first `n` services. */
  function PlanSubscriptions(config: Config, services: Services, n: nat): SubscriptionPlan
    requires n <= |services|
  {
    if n == 0 then NO_SUBSCRIPTIONS
    else SubscribeService(config, services[n - 1], PlanSubscriptions(config, services, n - 1))
  }

  lemma {:induction false} SubscribeWithin(config: Config, service: Service, plan: SubscriptionPlan, i: nat)
    requires i <= |service.characteristics| && |plan.list| <= MAX_SUBSCRIPTIONS
    ensures |SubscribeService(config, service, plan, i).list| <= MAX_SUBSCRIPTIONS
    decreases |service.characteristics| - i
  {
    hide CccdHandle;
    if i < |service.characteristics| {
      var c := service.characteristics[i];
      if !WantsSubscription(config, service.uuid, c) {
        SubscribeWithin(config, service, plan, i + 1);
      } else if |plan.list| < MAX_SUBSCRIPTIONS {
        var required := service.uuid == HID_SERVICE && IsReportCharacteristic(c.uuid);
        SubscribeWithin(config, service,
          plan.(list := plan.list + [Subscription(c.handle, CccdHandle(c.descriptors), c.canNotify, required)]), i + 1);
      }
    }
  }

  lemma {:induction false} SubscriptionsWithin(config: Config, services: Services, n: nat)
    requires n <= |services|
    ensures |PlanSubscriptions(config, services, n).list| <= MAX_SUBSCRIPTIONS
  {
    if n > 0 {
      SubscriptionsWithin(config, services, n - 1);
      SubscribeWithin(config, services[n - 1], PlanSubscriptions(config, services, n - 1), 0);
    }
  }

  // ---------- report references ----------

  /** The parsed report map of a HID service and its Protocol Mode handle. */
  datatype Context = Context(protocolModeHandle: uint16, reportMap: Option<Schema>)

  /** Contexts by service instance; only HID services have one. */
  type Contexts = map<uint16, Context>

  function KindOfType(reportType: uint8): ReportKind {
    if reportType == 1 then Input else if reportType == 2 then Output else Feature
  }

  /** A complete reference to a report that the service's map does not define. */
  predicate Dangling(source: Source, instance: uint16, reportMap: Schema) {
    && source.serviceInstance == instance && source.hasReportId && source.hasReportType
    && 1 <= source.reportType <= 3
    && ReportIndex(reportMap.reports, KindOfType(source.reportType), source.reportId) == |reportMap.reports|
  }

  datatype Profile = Profile(sources: map<uint16, Source>, contexts: Contexts, handles: set<uint16>, degraded: bool)

  function SourceOf(sources: map<uint16, Source>, handle: uint16): Source {
    if handle in sources then sources[handle] else NO_SOURCE
  }

  function BuildCharacteristic(p: Profile, instance: uint16, c: Characteristic): Profile {
    var q := if !IsReportCharacteristic(c.uuid) then p
             else
               var named := SourceOf(p.sources, c.handle)
                              .(serviceInstance := instance, handle := c.handle, uuid := c.uuid);
               var source := if c.uuid == HID_REPORT then named else named.(reportType := 1, hasReportType := true);
               p.(sources := p.sources[c.handle := source], handles := p.handles + {c.handle},
                  degraded := p.degraded || (c.uuid == HID_REPORT && !source.hasReportId));
    if c.uuid == HID_PROTOCOL_MODE && instance in q.contexts
    then q.(contexts := q.contexts[instance := q.contexts[instance].(protocolModeHandle := c.handle)])
    else q
  }

  /** The characteristic loop of `build_hid_profiles_`. */
  function BuildCharacteristics(profile: Profile, service: Service, instance: uint16, n: nat): Profile
    requires n <= |service.characteristics|
  {
    if n == 0 then profile
    else BuildCharacteristic(BuildCharacteristics(profile, service, instance, n - 1), instance,
                             service.characteristics[n - 1])
  }

  predicate AnyDangling(sources: map<uint16, Source>, instance: uint16, reportMap: Schema) {
    exists h | h in sources :: Dangling(sources[h], instance, reportMap)
  }

  function BuildService(profile: Profile, service: Service, instance: uint16): Profile {
    if service.uuid != HID_SERVICE then profile
    else
      var p := BuildCharacteristics(profile, service, instance, |service.characteristics|);
      if instance !in p.contexts || p.contexts[instance].reportMap.None? then p
      else p.(degraded := p.degraded || AnyDangling(p.sources, instance, p.contexts[instance].reportMap.value))
  }

  /** `build_hid_profiles_` over the first `n` services. */
  function BuildProfiles(profile: Profile, services: Services, n: nat): Profile
    requires n <= |services|
  {
    if n == 0 then profile else BuildService(BuildProfiles(profile, services, n - 1), services[n - 1], n - 1)
  }

  /** What an undegraded profile says about service `i`: each of its HID Report characteristics has a
      report reference, and no reference of the service dangles. */
  ghost predicate ReferencesOk(sources: map<uint16, Source>, contexts: Contexts, services: Services, i: nat)
    requires i < |services|
  {
    services[i].uuid == HID_SERVICE ==>
      && (forall k | 0 <= k < |services[i].characteristics| ::
            services[i].characteristics[k].uuid == HID_REPORT ==>
              services[i].characteristics[k].handle in sources
                && sources[services[i].characteristics[k].handle].hasReportId)
      && (i in contexts && contexts[i].reportMap.Some? ==> !AnyDangling(sources, i, contexts[i].reportMap.value))
  }

  ghost predicate SameMaps(a: Contexts, b: Contexts) {
    a.Keys == b.Keys && forall i | i in a :: a[i].reportMap == b[i].reportMap
  }

  /** Building one service leaves the report maps alone, keeps known report ids, and gives every
      source it touches the service's own instance. */
  ghost predicate BuildFrame(p: Profile, q: Profile, instance: uint16) {
    && SameMaps(p.contexts, q.contexts)
    && (p.degraded ==> q.degraded)
    && (forall h | h in p.sources :: h in q.sources && (p.sources[h].hasReportId ==> q.sources[h].hasReportId))
    && (forall h | h in q.sources ::
        q.sources[h].serviceInstance == instance || (h in p.sources && q.sources[h] == p.sources[h]))
  }

  lemma {:induction false} BuildCharacteristicsFrame(p: Profile, service: Service, instance: uint16, n: nat)
    requires n <= |service.characteristics|
    ensures BuildFrame(p, BuildCharacteristics(p, service, instance, n), instance)
  {
    if n > 0 {
      BuildCharacteristicsFrame(p, service, instance, n - 1);
    }
  }

  lemma {:induction false} BuiltReferences(p: Profile, service: Service, instance: uint16, n: nat)
    requires n <= |service.characteristics| && !BuildCharacteristics(p, service, instance, n).degraded
    ensures forall k | 0 <= k < n :: service.characteristics[k].uuid == HID_REPORT ==>
      var sources := BuildCharacteristics(p, service, instance, n).sources;
      service.characteristics[k].handle in sources && sources[service.characteristics[k].handle].hasReportId
  {
    if n > 0 {
      BuiltReferences(p, service, instance, n - 1);
    }
  }

  /** An earlier service's references survive the building of a later one. */
  lemma ReferencesSurvive(p: Profile, q: Profile, services: Services, i: nat, later: uint16)
    requires i < |services| && i != later && BuildFrame(p, q, later) && ReferencesOk(p.sources, p.contexts, services, i)
    ensures ReferencesOk(q.sources, q.contexts, services, i)
  {
    hide ReportIndex;
    if services[i].uuid == HID_SERVICE && i in q.contexts && q.contexts[i].reportMap.Some? {
      forall h | h in q.sources
        ensures !Dangling(q.sources[h], i, q.contexts[i].reportMap.value)
      {
        if q.sources[h].serviceInstance == i {
          assert !Dangling(p.sources[h], i, p.contexts[i].reportMap.value);
        }
      }
    }
  }

  lemma BuildServiceFrame(p: Profile, service: Service, instance: uint16)
    ensures BuildFrame(p, BuildService(p, service, instance), instance)
  {
    BuildCharacteristicsFrame(p, service, instance, |service.characteristics|);
  }

  lemma BuiltServiceOk(p: Profile, services: Services, i: nat)
    requires i < |services| && !BuildService(p, services[i], i).degraded
    ensures ReferencesOk(BuildService(p, services[i], i).sources, BuildService(p, services[i], i).contexts, services, i)
  {
    if services[i].uuid == HID_SERVICE {
      BuiltReferences(p, services[i], i, |services[i].characteristics|);
    }
  }

  /** If building ends without a finding, every report reference of every HID service is sound. */
  lemma {:induction false} BuildIsSound(p: Profile, services: Services, n: nat)
    requires n <= |services|
    ensures SameMaps(p.contexts, BuildProfiles(p, services, n).contexts)
    ensures p.degraded ==> BuildProfiles(p, services, n).degraded
    ensures !BuildProfiles(p, services, n).degraded ==> forall i | 0 <= i < n ::
      ReferencesOk(BuildProfiles(p, services, n).sources, BuildProfiles(p, services, n).contexts, services, i)
  {
    hide BuildService, ReferencesOk;
    if n > 0 {
      var q := BuildProfiles(p, services, n - 1);
      BuildIsSound(p, services, n - 1);
      BuildServiceFrame(q, services[n - 1], n - 1);
      if !BuildProfiles(p, services, n).degraded {
        forall i | 0 <= i < n - 1
          ensures ReferencesOk(BuildProfiles(p, services, n).sources, BuildProfiles(p, services, n).contexts, services,
                               i)
        {
          ReferencesSurvive(q, BuildProfiles(p, services, n), services, i, n - 1);
        }
        BuiltServiceOk(q, services, n - 1);
      }
    }
  }

  // ---------- references that name a defined report ----------

  /** Report ids come with one of the three report types. */
  ghost predicate TypesKnown(sources: map<uint16, Source>) {
    forall h | h in sources :: sources[h].hasReportId ==> sources[h].hasReportType && 1 <= sources[h].reportType <= 3
  }

  /** The reference names a report that the map defines. */
  predicate NamesReport(source: Source, reportMap: Schema) {
    && source.hasReportType && 1 <= source.reportType <= 3
    && ReportIndex(reportMap.reports, KindOfType(source.reportType), source.reportId) < |reportMap.reports|
  }

  /** Each HID Report characteristic of service `i` has a report reference, and when the service has a
      report map, every reference of the service names a report of it. */
  ghost predicate ReferencesDefined(sources: map<uint16, Source>, contexts: Contexts, services: Services, i: nat)
    requires i < |services|
  {
    services[i].uuid == HID_SERVICE ==>
      && (forall k | 0 <= k < |services[i].characteristics| ::
            services[i].characteristics[k].uuid == HID_REPORT ==>
              services[i].characteristics[k].handle in sources
                && sources[services[i].characteristics[k].handle].hasReportId)
      && (i in contexts && contexts[i].reportMap.Some? ==>
            forall h | h in sources && sources[h].serviceInstance == i && sources[h].hasReportId ::
              NamesReport(sources[h], contexts[i].reportMap.value))
  }

  lemma KnownTypesDefine(sources: map<uint16, Source>, contexts: Contexts, services: Services, i: nat)
    requires i < |services| && TypesKnown(sources) && ReferencesOk(sources, contexts, services, i)
    ensures ReferencesDefined(sources, contexts, services, i)
  {
    if services[i].uuid == HID_SERVICE && i in contexts && contexts[i].reportMap.Some? {
      forall h | h in sources && sources[h].serviceInstance == i && sources[h].hasReportId
        ensures NamesReport(sources[h], contexts[i].reportMap.value)
      {
        assert !Dangling(sources[h], i, contexts[i].reportMap.value);
      }
    }
  }

  lemma {:induction false} BuildCharacteristicsTypes(p: Profile, service: Service, instance: uint16, n: nat)
    requires n <= |service.characteristics| && TypesKnown(p.sources)
    ensures TypesKnown(BuildCharacteristics(p, service, instance, n).sources)
  {
    if n > 0 {
      BuildCharacteristicsTypes(p, service, instance, n - 1);
    }
  }

  /** Building a profile adds no report id, and gives boot characteristics the input type. */
  lemma {:induction false} BuildTypes(p: Profile, services: Services, n: nat)
    requires n <= |services| && TypesKnown(p.sources)
    ensures TypesKnown(BuildProfiles(p, services, n).sources)
  {
    hide BuildCharacteristics, TypesKnown, AnyDangling;
    if n > 0 {
      BuildTypes(p, services, n - 1);
      BuildCharacteristicsTypes(BuildProfiles(p, services, n - 1), services[n - 1], n - 1,
                                |services[n - 1].characteristics|);
    }
  }
}
