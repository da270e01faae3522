/** What the plans of a connection cover, in terms of the GATT database: each attribute is read at
    most once, no Report Map and no input report is forgotten, and so READY means that every HID
    service can be decoded and delivers its reports. */
module SetupCoverage {
  import opened Integers
  import opened SetupPlan
  import opened Setup
  import opened SetupProofs

  // ---------- reads ----------

  /** A plan holds every handle once, within the limit. */
  ghost predicate OncePerHandle(plan: ReadPlan) {
    && |plan.ops| <= MAX_READ_OPERATIONS
    && (forall i, j | 0 <= i < j < |plan.ops| :: plan.ops[i].handle != plan.ops[j].handle)
    && (forall i | 0 <= i < |plan.ops| :: plan.ops[i].handle in plan.handles)
  }

  /** Planning on loses nothing, and plans no handle but the given ones. */
  ghost predicate Extends(p: ReadPlan, q: ReadPlan) {
    && (forall op | op in p.ops :: op in q.ops)
    && p.handles <= q.handles
    && (p.overflow ==> q.overflow)
    && (OncePerHandle(p) ==> OncePerHandle(q))
  }

  lemma ExtendsChain(p: ReadPlan, q: ReadPlan, r: ReadPlan)
    requires Extends(p, q) && Extends(q, r)
    ensures Extends(p, r)
  {
    hide OncePerHandle;
  }

  lemma AddReadExtends(plan: ReadPlan, op: ReadOp)
    ensures Extends(plan, AddRead(plan, op))
    ensures AddRead(plan, op).handles <= plan.handles + {op.handle}
    ensures op.handle !in plan.handles && !AddRead(plan, op).overflow ==> op in AddRead(plan, op).ops
  {
  }

  lemma {:induction false} DescriptorsExtend(config: Config, instance: uint16, c: Characteristic, plan: ReadPlan,
                                             n: nat)
    requires n <= |c.descriptors|
    ensures Extends(plan, PlanDescriptors(config, instance, c, plan, n))
    ensures forall h | h in PlanDescriptors(config, instance, c, plan, n).handles ::
      h in plan.handles || exists k :: 0 <= k < n && c.descriptors[k].handle == h
  {
    hide AddRead, Extends, DescriptorPurpose;
    if n == 0 {
      ExtendsItself(plan);
    } else {
      DescriptorsExtend(config, instance, c, plan, n - 1);
      var before, d := PlanDescriptors(config, instance, c, plan, n - 1), c.descriptors[n - 1];
      var op := ReadOp(d.handle, c.handle, instance, OrGeneric(DescriptorPurpose(d.uuid)), false);
      AddReadExtends(before, op);
      ExtendsChain(plan, before, AddRead(before, op));
    }
  }

  lemma ExtendsItself(plan: ReadPlan)
    ensures Extends(plan, plan)
  {
  }

  /** Neither the characteristic nor one of its descriptors has the handle. */
  ghost predicate Elsewhere(c: Characteristic, h: uint16) {
    c.handle != h && forall d | 0 <= d < |c.descriptors| :: c.descriptors[d].handle != h
  }

  lemma CharacteristicExtends(config: Config, service: uint16, instance: uint16, c: Characteristic, plan: ReadPlan)
    ensures Extends(plan, PlanCharacteristic(config, service, instance, c, plan))
    ensures forall h | h !in plan.handles && Elsewhere(c, h) ::
      h !in PlanCharacteristic(config, service, instance, c, plan).handles
    ensures var purpose, q := StandardPurpose(service, c.uuid), PlanCharacteristic(config, service, instance, c, plan);
      c.canRead && purpose.Some? && c.handle !in plan.handles && !q.overflow ==>
        ReadOp(c.handle, c.handle, instance, purpose.value, purpose == Some(ReportMap)) in q.ops
  {
    hide AddRead, StandardPurpose, PlanDescriptors, OncePerHandle;
    var purpose := StandardPurpose(service, c.uuid);
    var op := ReadOp(c.handle, c.handle, instance, OrGeneric(purpose), purpose == Some(ReportMap));
    AddReadExtends(plan, op);
    ExtendsItself(plan);
    var own := if c.canRead && (purpose.Some? || config.forensic) then AddRead(plan, op) else plan;
    DescriptorsExtend(config, instance, c, own, |c.descriptors|);
    ExtendsChain(plan, own, PlanDescriptors(config, instance, c, own, |c.descriptors|));
  }

  lemma {:induction false} ServiceExtends(config: Config, service: Service, instance: uint16, plan: ReadPlan, m: nat,
                                          n: nat)
    requires m <= n <= |service.characteristics|
    ensures Extends(PlanService(config, service, instance, plan, m), PlanService(config, service, instance, plan, n))
    ensures forall h | h !in PlanService(config, service, instance, plan, m).handles
      && (forall k | m <= k < n :: Elsewhere(service.characteristics[k], h)) ::
        h !in PlanService(config, service, instance, plan, n).handles
    decreases n
  {
    hide PlanCharacteristic, Extends, Elsewhere;
    if m == n {
      ExtendsItself(PlanService(config, service, instance, plan, m));
    } else {
      ServiceExtends(config, service, instance, plan, m, n - 1);
      var before := PlanService(config, service, instance, plan, n - 1);
      CharacteristicExtends(config, service.uuid, instance, service.characteristics[n - 1], before);
      ExtendsChain(PlanService(config, service, instance, plan, m), before,
                   PlanService(config, service, instance, plan, n));
    }
  }

  lemma {:induction false} ReadsExtend(config: Config, services: Services, m: nat, n: nat)
    requires m <= n <= |services|
    ensures Extends(PlanReads(config, services, m), PlanReads(config, services, n))
    ensures forall h | h !in PlanReads(config, services, m).handles
      && (forall i, k | m <= i < n && 0 <= k < |services[i].characteristics| ::
          Elsewhere(services[i].characteristics[k], h)) ::
        h !in PlanReads(config, services, n).handles
    decreases n
  {
    hide PlanService, Extends, Elsewhere;
    if m == n {
      ExtendsItself(PlanReads(config, services, m));
    } else {
      ReadsExtend(config, services, m, n - 1);
      var before, service := PlanReads(config, services, n - 1), services[n - 1];
      ServiceExtends(config, service, n - 1, before, 0, |service.characteristics|);
      ServiceStart(config, service, n - 1, before);
      ExtendsChain(PlanReads(config, services, m), before, PlanReads(config, services, n));
    }
  }

  lemma ServiceStart(config: Config, service: Service, instance: uint16, plan: ReadPlan)
    ensures PlanService(config, service, instance, plan, 0) == plan
  {
  }

  /** No attribute is read twice, and at most 384 are read. */
  lemma EachAttributeOnce(config: Config, services: Services)
    ensures OncePerHandle(PlanReads(config, services, |services|))
  {
    hide PlanService;
    ReadsExtend(config, services, 0, |services|);
  }

  /** No other attribute of the database has the handle of characteristic `k` of service `i`. */
  ghost predicate OwnHandle(services: Services, i: nat, k: nat)
    requires i < |services| && k < |services[i].characteristics|
  {
    var h := services[i].characteristics[k].handle;
    forall a, b | 0 <= a < |services| && 0 <= b < |services[a].characteristics| && (a, b) != (i, k) ::
      Elsewhere(services[a].characteristics[b], h)
  }

  /** A readable characteristic that standard discovery reads is planned under its purpose, unless
      the plan overflows. */
  lemma AttributePlanned(config: Config, services: Services, i: nat, k: nat)
    requires i < |services| && k < |services[i].characteristics| && OwnHandle(services, i, k)
    requires var c := services[i].characteristics[k]; c.canRead && StandardPurpose(services[i].uuid, c.uuid).Some?
    requires !PlanReads(config, services, |services|).overflow
    ensures var c := services[i].characteristics[k]; var purpose := StandardPurpose(services[i].uuid, c.uuid);
      ReadOp(c.handle, c.handle, i, purpose.value, purpose == Some(ReportMap))
      in PlanReads(config, services, |services|).ops
  {
    hide PlanService, PlanCharacteristic, StandardPurpose, Elsewhere, OncePerHandle;
    var service := services[i];
    var h, m, before := service.characteristics[k].handle, |service.characteristics|, PlanReads(config, services, i);
    ReadsExtend(config, services, 0, i);
    ServiceExtends(config, service, i, before, 0, k);
    ServiceStart(config, service, i, before);
    CharacteristicExtends(config, service.uuid, i, service.characteristics[k],
                          PlanService(config, service, i, before, k));
    ServiceNext(config, service, i, before, k);
    ServiceExtends(config, service, i, before, k + 1, m);
    ReadsExtend(config, services, i + 1, |services|);
  }

  lemma ServiceNext(config: Config, service: Service, instance: uint16, plan: ReadPlan, k: nat)
    requires k < |service.characteristics|
    ensures PlanService(config, service, instance, plan, k + 1)
      == PlanCharacteristic(config, service.uuid, instance, service.characteristics[k],
                            PlanService(config, service, instance, plan, k))
  {
  }

  // ---------- subscriptions ----------

  /** Later entries are appended, and an overflow stays noted. */
  ghost predicate Continues(p: SubscriptionPlan, q: SubscriptionPlan) {
    p.list <= q.list && (p.overflow ==> q.overflow)
  }

  lemma ContinuesChain(p: SubscriptionPlan, q: SubscriptionPlan, r: SubscriptionPlan)
    requires Continues(p, q) && Continues(q, r)
    ensures Continues(p, r)
  {
  }

  function Entry(service: Service, k: nat): Subscription
    requires k < |service.characteristics|
  {
    var c := service.characteristics[k];
    Subscription(c.handle, CccdHandle(c.descriptors), c.canNotify,
                 service.uuid == HID_SERVICE && IsReportCharacteristic(c.uuid))
  }

  lemma {:induction false} SubscribeCovers(config: Config, service: Service, plan: SubscriptionPlan, i: nat, k: nat)
    requires i <= k <= |service.characteristics|
    ensures var q := SubscribeService(config, service, plan, i);
      && Continues(plan, q)
      && (k < |service.characteristics| && WantsSubscription(config, service.uuid, service.characteristics[k])
          && !q.overflow ==>
            Entry(service, k) in q.list)
    decreases |service.characteristics| - i
  {
    hide CccdHandle, WantsSubscription;
    if i < |service.characteristics| {
      var wanted := WantsSubscription(config, service.uuid, service.characteristics[i]);
      if !wanted {
        SubscribeCovers(config, service, plan, i + 1, if i == k then k + 1 else k);
      } else if |plan.list| < MAX_SUBSCRIPTIONS {
        var next := plan.(list := plan.list + [Entry(service, i)]);
        SubscribeCovers(config, service, next, i + 1, if i == k then k + 1 else k);
        assert Continues(plan, next);
        ContinuesChain(plan, next, SubscribeService(config, service, next, i + 1));
        assert Entry(service, i) in next.list;
      }
    }
  }

  lemma {:induction false} SubscriptionsContinue(config: Config, services: Services, m: nat, n: nat)
    requires m <= n <= |services|
    ensures Continues(PlanSubscriptions(config, services, m), PlanSubscriptions(config, services, n))
    decreases n
  {
    hide SubscribeService;
    if m < n {
      SubscriptionsContinue(config, services, m, n - 1);
      SubscribeCovers(config, services[n - 1], PlanSubscriptions(config, services, n - 1), 0, 0);
      ContinuesChain(PlanSubscriptions(config, services, m), PlanSubscriptions(config, services, n - 1),
                     PlanSubscriptions(config, services, n));
    }
  }

  /** Every characteristic that wants a subscription has one in the plan, unless the plan overflows. */
  lemma SubscriptionPlanned(config: Config, services: Services, i: nat, k: nat)
    requires i < |services| && k < |services[i].characteristics|
    requires WantsSubscription(config, services[i].uuid, services[i].characteristics[k])
    requires !PlanSubscriptions(config, services, |services|).overflow
    ensures Entry(services[i], k) in PlanSubscriptions(config, services, |services|).list
  {
    hide SubscribeService, WantsSubscription, Entry;
    SubscriptionsContinue(config, services, i + 1, |services|);
    SubscribeCovers(config, services[i], PlanSubscriptions(config, services, i), 0, k);
  }

  // ---------- READY in terms of the database ----------

  /** READY: the Report Map of every HID service that has a readable one with a handle of its own is
      parsed, and every notifying or indicating report characteristic is subscribed through its CCCD. */
  lemma ReadyMeansUsable(config: Config, events: seq<Event>, n: nat, i: nat, k: nat)
    requires n <= |events| && ExpectedRun(config, events) && Run(config, events, n).phase == Ready
    requires var services := Run(config, events, n).services;
      i < |services| && k < |services[i].characteristics| && services[i].uuid == HID_SERVICE
    ensures var s := Run(config, events, n); var c := s.services[i].characteristics[k];
      && (c.uuid == HID_REPORT_MAP && c.canRead && OwnHandle(s.services, i, k) ==>
            i in s.contexts && s.contexts[i].reportMap.Some?)
      && (IsReportCharacteristic(c.uuid) && (c.canNotify || c.canIndicate) ==>
            Subscription(c.handle, CccdHandle(c.descriptors), c.canNotify, true) in s.history.doneSubscriptions)
  {
    hide PlanReads, PlanSubscriptions, Run, OwnHandle, CccdHandle, ReferencesDefined, ExpectedRun;
    ReadyIsHonest(config, events, n);
    var s := Run(config, events, n);
    var c := s.services[i].characteristics[k];
    if c.uuid == HID_REPORT_MAP && c.canRead && OwnHandle(s.services, i, k) {
      AttributePlanned(config, s.services, i, k);
      assert Finished(s, ReadOp(c.handle, c.handle, i, ReportMap, true));
    }
    if IsReportCharacteristic(c.uuid) && (c.canNotify || c.canIndicate) {
      SubscriptionPlanned(config, s.services, i, k);
      assert Entry(s.services[i], k).required;
    }
  }
}
