/** The plans of a connection as lists over the GATT database: subscriptions are the first 128 wanted
    ones, reads the first 384 attributes with handles of their own, Protocol Mode writes one for each
    HID service that has the characteristic. UUIDs are written out (Bluetooth Assigned Numbers). */
module SetupDatabase {
  import opened Integers
  import opened SetupPlan
  import opened Setup

  // ---------- subscriptions ----------

  /** The first Client Characteristic Configuration descriptor, `k`, is the one that is written; a
      characteristic without one has the handle 0. */
  lemma {:induction false} FirstCccd(descriptors: seq<Descriptor>, i: nat, k: nat)
    requires i <= k <= |descriptors| && forall j | i <= j < k :: descriptors[j].uuid != 0x2902
    requires k < |descriptors| ==> descriptors[k].uuid == 0x2902
    ensures CccdHandle(descriptors, i) == if k < |descriptors| then descriptors[k].handle else 0
    decreases k - i
  {
    if i < k {
      FirstCccd(descriptors, i + 1, k);
    }
  }

  /** Report, Boot Keyboard Input Report or Boot Mouse Input Report of a HID service. */
  predicate DeliversInput(service: uint16, uuid: uint16) {
    service == 0x1812 && (uuid == 0x2A4D || uuid == 0x2A22 || uuid == 0x2A33)
  }

  predicate Subscribable(config: Config, service: uint16, c: Characteristic) {
    && (c.canNotify || c.canIndicate)
    && (config.forensic || DeliversInput(service, c.uuid)
        || (service == 0x180F && c.uuid == 0x2A19) || (service == 0x1801 && c.uuid == 0x2A05))
  }

  /** What the first `n` characteristics of a service are subscribed for. */
  function Wanted(config: Config, service: Service, n: nat): seq<Subscription>
    requires n <= |service.characteristics|
  {
    if n == 0 then []
    else
      var c := service.characteristics[n - 1];
      Wanted(config, service, n - 1)
        + (if Subscribable(config, service.uuid, c)
           then [Subscription(c.handle, CccdHandle(c.descriptors), c.canNotify, DeliversInput(service.uuid, c.uuid))]
           else [])
  }

  function AllWanted(config: Config, services: Services, n: nat): seq<Subscription>
    requires n <= |services|
  {
    if n == 0 then []
    else AllWanted(config, services, n - 1) + Wanted(config, services[n - 1], |services[n - 1].characteristics|)
  }

  function FirstOf<T>(list: seq<T>, limit: nat): seq<T> { if |list| <= limit then list else list[..limit] }

  lemma {:induction false} WantedGrows(config: Config, service: Service, m: nat, n: nat)
    requires m <= n <= |service.characteristics|
    ensures Wanted(config, service, m) <= Wanted(config, service, n)
    decreases n
  {
    hide Subscribable, CccdHandle;
    if m < n {
      WantedGrows(config, service, m, n - 1);
    }
  }

  lemma WantsAreSubscribable(config: Config, service: uint16, c: Characteristic)
    ensures WantsSubscription(config, service, c) <==> Subscribable(config, service, c)
    ensures service == HID_SERVICE && IsReportCharacteristic(c.uuid) <==> DeliversInput(service, c.uuid)
  {
  }

  lemma FirstOfMore<T>(a: seq<T>, b: seq<T>, limit: nat)
    requires a <= b && |a| >= limit
    ensures FirstOf(a, limit) == FirstOf(b, limit)
  {
    assert b[..|a|] == a;
    assert FirstOf(a, limit) == a[..limit];
    assert FirstOf(b, limit) == b[..limit];
  }

  lemma {:induction false} SubscribeTakes(config: Config, service: Service, before: seq<Subscription>, i: nat)
    requires i <= |service.characteristics|
    ensures var w := before + Wanted(config, service, i);
      var all := before + Wanted(config, service, |service.characteristics|);
      SubscribeService(config, service, SubscriptionPlan(FirstOf(w, 128), |w| > 128), i)
        == SubscriptionPlan(FirstOf(all, 128), |all| > 128)
    decreases |service.characteristics| - i
  {
    hide Subscribable, WantsSubscription, DeliversInput, IsReportCharacteristic, CccdHandle;
    if i < |service.characteristics| {
      var c, m := service.characteristics[i], |service.characteristics|;
      WantsAreSubscribable(config, service.uuid, c);
      SubscribeTakes(config, service, before, i + 1);
      WantedGrows(config, service, i + 1, m);
      var w, next, all := before + Wanted(config, service, i), before + Wanted(config, service, i + 1),
        before + Wanted(config, service, m);
      if Subscribable(config, service.uuid, c) {
        var sub := Subscription(c.handle, CccdHandle(c.descriptors), c.canNotify, DeliversInput(service.uuid, c.uuid));
        assert next == w + [sub];
        if |w| >= 128 {
          assert next <= all;
          FirstOfMore(w, all, 128);
        }
      } else {
        assert next == w;
      }
    }
  }

  /** The planned subscriptions are the first 128 that the database has to offer, in its order; there is
      an overflow exactly if it has more. */
  lemma {:induction false} SubscriptionsAreWanted(config: Config, services: Services, n: nat)
    requires n <= |services|
    ensures PlanSubscriptions(config, services, n)
      == SubscriptionPlan(FirstOf(AllWanted(config, services, n), 128), |AllWanted(config, services, n)| > 128)
  {
    hide SubscribeService, Wanted;
    if n > 0 {
      SubscriptionsAreWanted(config, services, n - 1);
      SubscribeTakes(config, services[n - 1], AllWanted(config, services, n - 1), 0);
      NothingWanted(config, services[n - 1], AllWanted(config, services, n - 1));
    }
  }

  lemma NothingWanted(config: Config, service: Service, before: seq<Subscription>)
    ensures before + Wanted(config, service, 0) == before
  {
  }

  // ---------- reads ----------

  /** Why standard discovery reads a characteristic, by service and characteristic UUID. */
  lemma PurposesAre(service: uint16, uuid: uint16)
    ensures var purpose := StandardPurpose(service, uuid);
      && (purpose == Some(Name) <==> service == 0x1800 && uuid == 0x2A00)
      && (purpose == Some(Purpose.Appearance) <==> service == 0x1800 && uuid == 0x2A01)
      && (purpose == Some(PreferredParameters) <==> service == 0x1800 && uuid == 0x2A04)
      && (purpose == Some(Battery) <==> service == 0x180F && uuid == 0x2A19)
      && (purpose == Some(PnpId) <==> service == 0x180A && uuid == 0x2A50)
      && (purpose == Some(Information) <==> service == 0x1812 && uuid == 0x2A4A)
      && (purpose == Some(ReportMap) <==> service == 0x1812 && uuid == 0x2A4B)
      && (purpose == Some(ProtocolMode) <==> service == 0x1812 && uuid == 0x2A4E)
      && (purpose == Some(ReportValue) <==> service == 0x1812 && uuid in {0x2A4D, 0x2A22, 0x2A33, 0x2A32})
      && (purpose == Some(Generic) <==>
            || (service == 0x1801 && uuid in {0x2A05, 0x2B2A, 0x2B29, 0x2B3A})
            || (service == 0x180A && 0x2A23 <= uuid <= 0x2A2A))
      && purpose != Some(ReportReference) && purpose != Some(ExternalReference)
  {
  }

  lemma DescriptorPurposesAre(uuid: uint16)
    ensures DescriptorPurpose(uuid) == Some(ReportReference) <==> uuid == 0x2908
    ensures DescriptorPurpose(uuid) == Some(ExternalReference) <==> uuid == 0x2907
    ensures DescriptorPurpose(uuid) == Some(Generic) <==> uuid == 0x2901 || uuid == 0x2904 || uuid == 0x2905
    ensures DescriptorPurpose(uuid) == None <==> uuid !in {0x2901, 0x2904, 0x2905, 0x2907, 0x2908}
  {
  }

  /** The reads of the first `n` descriptors of a characteristic. */
  function DescriptorReads(config: Config, instance: uint16, c: Characteristic, n: nat): seq<ReadOp>
    requires n <= |c.descriptors|
  {
    if n == 0 then []
    else
      var d := c.descriptors[n - 1];
      var purpose := DescriptorPurpose(d.uuid);
      DescriptorReads(config, instance, c, n - 1)
        + (if config.forensic || purpose.Some? then [ReadOp(d.handle, c.handle, instance, OrGeneric(purpose), false)]
           else [])
  }

  /** A characteristic is read itself if that is allowed, and then its descriptors are; only a Report Map
      is required. */
  function CharacteristicReads(config: Config, service: uint16, instance: uint16, c: Characteristic): seq<ReadOp> {
    var purpose := StandardPurpose(service, c.uuid);
    (if c.canRead && (config.forensic || purpose.Some?)
     then [ReadOp(c.handle, c.handle, instance, OrGeneric(purpose), service == 0x1812 && c.uuid == 0x2A4B)] else [])
      + DescriptorReads(config, instance, c, |c.descriptors|)
  }

  function ServiceReads(config: Config, service: Service, instance: uint16, n: nat): seq<ReadOp>
    requires n <= |service.characteristics|
  {
    if n == 0 then []
    else
      ServiceReads(config, service, instance, n - 1)
        + CharacteristicReads(config, service.uuid, instance, service.characteristics[n - 1])
  }

  /** Everything that is to be read in the first `n` services. */
  function AllReads(config: Config, services: Services, n: nat): seq<ReadOp>
    requires n <= |services|
  {
    if n == 0 then []
    else
      AllReads(config, services, n - 1)
        + ServiceReads(config, services[n - 1], n - 1, |services[n - 1].characteristics|)
  }

  predicate HasHandle(ops: seq<ReadOp>, handle: uint16) {
    exists j | 0 <= j < |ops| :: ops[j].handle == handle
  }

  /** The first read of each handle among the first `n` reads. */
  function Distinct(ops: seq<ReadOp>, n: nat): seq<ReadOp>
    requires n <= |ops|
  {
    if n == 0 then []
    else
      var before := Distinct(ops, n - 1);
      if HasHandle(before, ops[n - 1].handle) then before else before + [ops[n - 1]]
  }

  /** `plan` holds the first 384 of `ops` that have handles of their own. */
  ghost predicate Takes(plan: ReadPlan, ops: seq<ReadOp>) {
    var distinct := Distinct(ops, |ops|);
    && plan.ops == FirstOf(distinct, 384) && (plan.overflow <==> |distinct| > 384)
    && forall h :: h in plan.handles <==> HasHandle(plan.ops, h)
  }

  lemma {:induction false} DistinctOfPrefix(ops: seq<ReadOp>, more: seq<ReadOp>, n: nat)
    requires n <= |ops| && ops <= more
    ensures Distinct(more, n) == Distinct(ops, n)
  {
    hide HasHandle;
    if n > 0 {
      DistinctOfPrefix(ops, more, n - 1);
    }
  }

  lemma HasHandleGrows(ops: seq<ReadOp>, op: ReadOp, handle: uint16)
    ensures HasHandle(ops + [op], handle) <==> HasHandle(ops, handle) || handle == op.handle
  {
    var next := ops + [op];
    if HasHandle(ops, handle) {
      var j :| 0 <= j < |ops| && ops[j].handle == handle;
      assert next[j].handle == handle;
    }
    assert next[|ops|] == op;
  }

  lemma FirstHasHandle(ops: seq<ReadOp>, limit: nat, handle: uint16)
    ensures HasHandle(FirstOf(ops, limit), handle) ==> HasHandle(ops, handle)
    ensures |ops| <= limit ==> FirstOf(ops, limit) == ops
  {
  }

  lemma TakesNext(plan: ReadPlan, ops: seq<ReadOp>, op: ReadOp)
    requires Takes(plan, ops)
    ensures Takes(AddRead(plan, op), ops + [op])
  {
    hide HasHandle, FirstOf;
    var before := Distinct(ops, |ops|);
    DistinctOfPrefix(ops, ops + [op], |ops|);
    FirstHasHandle(before, 384, op.handle);
    if op.handle !in plan.handles {
      if |before| < 384 {
        FirstHasHandle(before + [op], 384, op.handle);
        forall h ensures HasHandle(plan.ops + [op], h) <==> HasHandle(plan.ops, h) || h == op.handle {
          HasHandleGrows(plan.ops, op, h);
        }
      } else {
        FullTakesNext(before, op);
      }
    }
  }

  lemma FullTakesNext(before: seq<ReadOp>, op: ReadOp)
    requires |before| >= 384
    ensures |FirstOf(before, 384)| == 384 && FirstOf(before + [op], 384) == FirstOf(before, 384)
  {
    FirstOfMore(before, before + [op], 384);
  }

  lemma {:induction false} DescriptorsTake(config: Config, instance: uint16, c: Characteristic, plan: ReadPlan,
                                           before: seq<ReadOp>, n: nat)
    requires n <= |c.descriptors| && Takes(plan, before)
    ensures Takes(PlanDescriptors(config, instance, c, plan, n), before + DescriptorReads(config, instance, c, n))
  {
    hide Takes, AddRead, DescriptorPurpose;
    if n == 0 {
      assert before + DescriptorReads(config, instance, c, n) == before;
    } else {
      DescriptorsTake(config, instance, c, plan, before, n - 1);
      var d := c.descriptors[n - 1];
      var op := ReadOp(d.handle, c.handle, instance, OrGeneric(DescriptorPurpose(d.uuid)), false);
      var ops := before + DescriptorReads(config, instance, c, n - 1);
      if DescriptorPurpose(d.uuid).Some? || config.forensic {
        TakesNext(PlanDescriptors(config, instance, c, plan, n - 1), ops, op);
        assert before + DescriptorReads(config, instance, c, n) == ops + [op];
      } else {
        assert before + DescriptorReads(config, instance, c, n) == ops;
      }
    }
  }

  lemma CharacteristicTakes(config: Config, service: uint16, instance: uint16, c: Characteristic, plan: ReadPlan,
                            before: seq<ReadOp>)
    requires Takes(plan, before)
    ensures Takes(PlanCharacteristic(config, service, instance, c, plan),
                  before + CharacteristicReads(config, service, instance, c))
  {
    hide Takes, AddRead, StandardPurpose, PlanDescriptors, DescriptorReads;
    PurposesAre(service, c.uuid);
    var purpose, descriptors := StandardPurpose(service, c.uuid),
      DescriptorReads(config, instance, c, |c.descriptors|);
    var op := ReadOp(c.handle, c.handle, instance, OrGeneric(purpose), purpose == Some(ReportMap));
    if c.canRead && (purpose.Some? || config.forensic) {
      TakesNext(plan, before, op);
      DescriptorsTake(config, instance, c, AddRead(plan, op), before + [op], |c.descriptors|);
      assert before + CharacteristicReads(config, service, instance, c) == before + [op] + descriptors;
    } else {
      DescriptorsTake(config, instance, c, plan, before, |c.descriptors|);
      assert before + CharacteristicReads(config, service, instance, c) == before + descriptors;
    }
  }

  lemma {:induction false} ServiceTakes(config: Config, service: Service, instance: uint16, plan: ReadPlan,
                                        before: seq<ReadOp>, n: nat)
    requires n <= |service.characteristics| && Takes(plan, before)
    ensures Takes(PlanService(config, service, instance, plan, n), before + ServiceReads(config, service, instance, n))
  {
    hide Takes, PlanCharacteristic, CharacteristicReads;
    if n == 0 {
      assert before + ServiceReads(config, service, instance, n) == before;
    } else {
      ServiceTakes(config, service, instance, plan, before, n - 1);
      var c, ops := service.characteristics[n - 1], before + ServiceReads(config, service, instance, n - 1);
      CharacteristicTakes(config, service.uuid, instance, c, PlanService(config, service, instance, plan, n - 1), ops);
      assert before + ServiceReads(config, service, instance, n)
        == ops + CharacteristicReads(config, service.uuid, instance, c);
    }
  }

  lemma {:induction false} PlanTakes(config: Config, services: Services, n: nat)
    requires n <= |services|
    ensures Takes(PlanReads(config, services, n), AllReads(config, services, n))
  {
    hide Takes, PlanService, ServiceReads;
    if n == 0 {
      NothingTaken();
    } else {
      PlanTakes(config, services, n - 1);
      ServiceTakes(config, services[n - 1], n - 1, PlanReads(config, services, n - 1),
                   AllReads(config, services, n - 1), |services[n - 1].characteristics|);
    }
  }

  lemma NothingTaken()
    ensures Takes(NO_READS, [])
  {
  }

  /** Everything that is planned to be read, each handle once. */
  function WantedReads(config: Config, services: Services): seq<ReadOp> {
    var ops := AllReads(config, services, |services|);
    Distinct(ops, |ops|)
  }

  /** The planned reads are the first 384 attributes with handles of their own, in the order of the
      database; there is an overflow exactly if it has more. */
  lemma ReadsAreWanted(config: Config, services: Services)
    ensures PlanReads(config, services, |services|).ops == FirstOf(WantedReads(config, services), 384)
    ensures PlanReads(config, services, |services|).overflow <==> |WantedReads(config, services)| > 384
  {
    hide PlanReads, AllReads, Distinct, FirstOf;
    PlanTakes(config, services, |services|);
  }

  // ---------- Protocol Mode ----------

  /** Handle of the last Protocol Mode characteristic among the first `n` of a service, or 0. */
  function ModeHandle(service: Service, n: nat): uint16
    requires n <= |service.characteristics|
  {
    if n == 0 then 0
    else if service.characteristics[n - 1].uuid == 0x2A4E then service.characteristics[n - 1].handle
    else ModeHandle(service, n - 1)
  }

  /** One write for each of the first `n` services that is a HID service with a Protocol Mode handle; 0
      selects boot protocol, 1 report protocol. */
  function WantedWrites(config: Config, services: Services, n: nat): seq<Write>
    requires n <= |services|
  {
    if n == 0 || config.policy == Unchanged then []
    else
      var service := services[n - 1];
      var handle := ModeHandle(service, |service.characteristics|);
      WantedWrites(config, services, n - 1)
        + (if service.uuid == 0x1812 && handle != 0 then [Write(handle, if config.policy == BootMode then 0 else 1)]
           else [])
  }

  /** Every HID service has a context, and it knows the Protocol Mode handle of the database. */
  ghost predicate KnowsModes(contexts: Contexts, services: Services, n: nat)
    requires n <= |services|
  {
    forall i: uint16 | 0 <= i < n ::
      (i in contexts <==> services[i].uuid == 0x1812)
      && (i in contexts ==>
            contexts[i].protocolModeHandle == ModeHandle(services[i], |services[i].characteristics|))
  }

  /** What remains of a list of writes to the handles in `handles`. */
  function ModeWrites(config: Config, handles: seq<uint16>): seq<Write> {
    seq(|handles|, k requires 0 <= k < |handles| => Write(handles[k], if config.policy == BootMode then 0 else 1))
  }

  lemma {:induction false} HandlesAreWanted(config: Config, contexts: Contexts, services: Services, n: nat)
    requires n <= |services| && KnowsModes(contexts, services, n) && config.policy != Unchanged
    ensures ModeWrites(config, ProtocolHandles(contexts, n)) == WantedWrites(config, services, n)
  {
    hide ModeHandle;
    if n > 0 {
      HandlesAreWanted(config, contexts, services, n - 1);
      var before := ProtocolHandles(contexts, n - 1);
      assert n - 1 in contexts <==> services[n - 1].uuid == 0x1812;
      if n - 1 in contexts && contexts[n - 1].protocolModeHandle != 0 {
        var handle := contexts[n - 1].protocolModeHandle;
        assert ModeWrites(config, before + [handle])
          == ModeWrites(config, before) + [Write(handle, if config.policy == BootMode then 0 else 1)];
      }
    }
  }
}
