/** When the profile of a connection has a finding, in terms of what was read: a HID Report
    characteristic got no Report Reference, or a reference names no report of its service's map. */
module SetupReferences {
  import opened Integers
  import opened HidSchema
  import opened HidDecoder
  import opened SetupPlan

  /** What is known about the report of a characteristic: the service it belongs to, its report id, and
      its report type, or 0. */
  datatype Reference = Reference(service: uint16, id: uint8, kind: uint8)

  function ReferenceOf(sources: map<uint16, Source>, handle: uint16): Option<Reference> {
    if handle in sources && sources[handle].hasReportId
    then
      var source := sources[handle];
      Some(Reference(source.serviceInstance, source.reportId, if source.hasReportType then source.reportType else 0))
    else None
  }

  /** The handle is one of an input characteristic among the first `n` of a service. */
  predicate Listed(service: Service, n: nat, handle: uint16)
    requires n <= |service.characteristics|
  {
    exists k | 0 <= k < n ::
      service.characteristics[k].handle == handle && service.characteristics[k].uuid in {0x2A4D, 0x2A22, 0x2A33}
  }

  /** The handle is one of a Boot Keyboard or Boot Mouse Input Report among the first `n`. */
  predicate BootListed(service: Service, n: nat, handle: uint16)
    requires n <= |service.characteristics|
  {
    exists k | 0 <= k < n ::
      service.characteristics[k].handle == handle && service.characteristics[k].uuid in {0x2A22, 0x2A33}
  }

  /** A listed characteristic belongs to the service that lists it; boot reports are input reports. */
  function Relisted(r: Option<Reference>, service: Service, instance: uint16, n: nat, handle: uint16)
      : Option<Reference>
    requires n <= |service.characteristics|
  {
    match r
    case None => None
    case Some(known) =>
      Some(Reference(if Listed(service, n, handle) then instance else known.service, known.id,
                     if BootListed(service, n, handle) then 1 else known.kind))
  }

  /** A reference behind the profile of the first `n` services. */
  function Rebuilt(r: Option<Reference>, services: Services, n: nat, handle: uint16): Option<Reference>
    requires n <= |services|
  {
    if n == 0 then r
    else
      var before := Rebuilt(r, services, n - 1, handle);
      if services[n - 1].uuid != 0x1812 then before
      else Relisted(before, services[n - 1], n - 1, |services[n - 1].characteristics|, handle)
  }

  /** Report types: 1 is input, 2 is output, 3 is feature. */
  predicate NamesNothing(r: Option<Reference>, instance: uint16, reportMap: Schema) {
    && r.Some? && r.value.service == instance && 1 <= r.value.kind <= 3
    && forall report | report in reportMap.reports ::
         report.reportId != r.value.id
         || report.kind != (if r.value.kind == 1 then Input else if r.value.kind == 2 then Output else Feature)
  }

  ghost predicate Missing(sources: map<uint16, Source>, service: Service, n: nat)
    requires n <= |service.characteristics|
  {
    exists k | 0 <= k < n ::
      service.characteristics[k].uuid == 0x2A4D && ReferenceOf(sources, service.characteristics[k].handle).None?
  }

  ghost predicate Undefined(sources: map<uint16, Source>, services: Services, i: uint16, reportMap: Schema)
    requires i < |services|
  {
    exists h: uint16 :: NamesNothing(Rebuilt(ReferenceOf(sources, h), services, i + 1, h), i, reportMap)
  }

  /** Service `i` is a HID service with a missing or an undefined reference. */
  ghost predicate BadReference(sources: map<uint16, Source>, contexts: Contexts, services: Services, i: uint16)
    requires i < |services|
  {
    && services[i].uuid == 0x1812
    && (|| Missing(sources, services[i], |services[i].characteristics|)
        || (i in contexts && contexts[i].reportMap.Some?
            && Undefined(sources, services, i, contexts[i].reportMap.value)))
  }

  lemma {:induction false} CharacteristicsRelist(p: Profile, service: Service, instance: uint16, n: nat, h: uint16)
    requires n <= |service.characteristics|
    ensures ReferenceOf(BuildCharacteristics(p, service, instance, n).sources, h)
      == Relisted(ReferenceOf(p.sources, h), service, instance, n, h)
  {
    hide Listed, BootListed, BuildCharacteristic, ReferenceOf;
    if n == 0 {
      ListedNone(service, h);
    } else {
      CharacteristicsRelist(p, service, instance, n - 1, h);
      ListedNext(service, n, h);
      CharacteristicRelists(BuildCharacteristics(p, service, instance, n - 1), instance, service.characteristics[n - 1],
                            h);
    }
  }

  lemma ListedNone(service: Service, h: uint16)
    ensures !Listed(service, 0, h) && !BootListed(service, 0, h)
  {
  }

  lemma ListedNext(service: Service, n: nat, h: uint16)
    requires 0 < n <= |service.characteristics|
    ensures var c := service.characteristics[n - 1];
      && (Listed(service, n, h) <==>
            Listed(service, n - 1, h) || (c.handle == h && c.uuid in {0x2A4D, 0x2A22, 0x2A33}))
      && (BootListed(service, n, h) <==> BootListed(service, n - 1, h) || (c.handle == h && c.uuid in {0x2A22, 0x2A33}))
  {
  }

  lemma CharacteristicRelists(p: Profile, instance: uint16, c: Characteristic, h: uint16)
    ensures var q, r := BuildCharacteristic(p, instance, c), ReferenceOf(p.sources, h);
      ReferenceOf(q.sources, h)
        == (match r
            case None => None
            case Some(known) =>
              if c.handle != h || c.uuid !in {0x2A4D, 0x2A22, 0x2A33} then r
              else Some(Reference(instance, known.id, if c.uuid == 0x2A4D then known.kind else 1)))
    ensures BuildCharacteristic(p, instance, c).degraded
      <==> p.degraded || (c.uuid == 0x2A4D && ReferenceOf(p.sources, c.handle).None?)
  {
  }

  lemma {:induction false} CharacteristicsFind(p: Profile, service: Service, instance: uint16, n: nat)
    requires n <= |service.characteristics|
    ensures BuildCharacteristics(p, service, instance, n).degraded <==> p.degraded || Missing(p.sources, service, n)
  {
    hide BuildCharacteristic, Relisted, ReferenceOf, Missing;
    if n == 0 {
      MissingNone(p.sources, service);
    } else {
      var before, c := BuildCharacteristics(p, service, instance, n - 1), service.characteristics[n - 1];
      CharacteristicsFind(p, service, instance, n - 1);
      CharacteristicsRelist(p, service, instance, n - 1, c.handle);
      RelistedIsKnown(ReferenceOf(p.sources, c.handle), service, instance, n - 1, c.handle);
      CharacteristicRelists(before, instance, c, c.handle);
      MissingNext(p.sources, service, n);
    }
  }

  lemma RelistedIsKnown(r: Option<Reference>, service: Service, instance: uint16, n: nat, h: uint16)
    requires n <= |service.characteristics|
    ensures Relisted(r, service, instance, n, h).None? <==> r.None?
  {
  }

  lemma MissingNone(sources: map<uint16, Source>, service: Service)
    ensures !Missing(sources, service, 0)
  {
  }

  lemma MissingNext(sources: map<uint16, Source>, service: Service, n: nat)
    requires 0 < n <= |service.characteristics|
    ensures var c := service.characteristics[n - 1];
      Missing(sources, service, n)
      == (Missing(sources, service, n - 1) || (c.uuid == 0x2A4D && ReferenceOf(sources, c.handle).None?))
  {
    hide ReferenceOf;
  }

  lemma DanglingNamesNothing(sources: map<uint16, Source>, h: uint16, instance: uint16, reportMap: Schema)
    ensures h in sources && Dangling(sources[h], instance, reportMap)
      <==> NamesNothing(ReferenceOf(sources, h), instance, reportMap)
  {
    if h in sources && sources[h].hasReportId && sources[h].hasReportType && 1 <= sources[h].reportType <= 3 {
      IndexIsAbsence(reportMap.reports, KindOfType(sources[h].reportType), sources[h].reportId);
    }
  }

  lemma IndexIsAbsence(reports: seq<Report>, kind: ReportKind, id: uint8)
    ensures ReportIndex(reports, kind, id) == |reports|
      <==> forall report | report in reports :: report.reportId != id || report.kind != kind
  {
    if ReportIndex(reports, kind, id) < |reports| {
      assert reports[ReportIndex(reports, kind, id)] in reports;
    }
  }

  lemma AnyNamesNothing(sources: map<uint16, Source>, instance: uint16, reportMap: Schema)
    ensures AnyDangling(sources, instance, reportMap)
      <==> exists h: uint16 :: NamesNothing(ReferenceOf(sources, h), instance, reportMap)
  {
    hide Dangling, NamesNothing, ReferenceOf;
    forall h: uint16
      ensures h in sources && Dangling(sources[h], instance, reportMap)
        <==> NamesNothing(ReferenceOf(sources, h), instance, reportMap)
    {
      DanglingNamesNothing(sources, h, instance, reportMap);
    }
  }

  lemma ServiceRelists(p: Profile, service: Service, instance: uint16, h: uint16)
    ensures ReferenceOf(BuildService(p, service, instance).sources, h)
      == if service.uuid != 0x1812 then ReferenceOf(p.sources, h)
         else Relisted(ReferenceOf(p.sources, h), service, instance, |service.characteristics|, h)
  {
    hide BuildCharacteristics, Relisted, AnyDangling, ReferenceOf;
    CharacteristicsRelist(p, service, instance, |service.characteristics|, h);
  }

  lemma {:induction false} ProfilesRelist(p: Profile, services: Services, n: nat, h: uint16)
    requires n <= |services|
    ensures ReferenceOf(BuildProfiles(p, services, n).sources, h) == Rebuilt(ReferenceOf(p.sources, h), services, n, h)
  {
    hide BuildService, Relisted, ReferenceOf;
    if n > 0 {
      ProfilesRelist(p, services, n - 1, h);
      ServiceRelists(BuildProfiles(p, services, n - 1), services[n - 1], n - 1, h);
    }
  }

  lemma {:induction false} RebuiltIsKnown(r: Option<Reference>, services: Services, n: nat, h: uint16)
    requires n <= |services|
    ensures Rebuilt(r, services, n, h).None? <==> r.None?
  {
    hide Relisted;
    if n > 0 {
      RebuiltIsKnown(r, services, n - 1, h);
      RelistedIsKnown(Rebuilt(r, services, n - 1, h), services[n - 1], n - 1, |services[n - 1].characteristics|, h);
    }
  }

  /** Nothing that is missing is found by building other services first. */
  lemma MissingStays(p: Profile, services: Services, n: nat, service: Service)
    requires n <= |services|
    ensures Missing(BuildProfiles(p, services, n).sources, service, |service.characteristics|)
      <==> Missing(p.sources, service, |service.characteristics|)
  {
    hide BuildProfiles, ReferenceOf, Rebuilt;
    var q := BuildProfiles(p, services, n);
    forall k | 0 <= k < |service.characteristics|
      ensures ReferenceOf(q.sources, service.characteristics[k].handle).None?
        <==> ReferenceOf(p.sources, service.characteristics[k].handle).None?
    {
      var h := service.characteristics[k].handle;
      ProfilesRelist(p, services, n, h);
      RebuiltIsKnown(ReferenceOf(p.sources, h), services, n, h);
    }
  }

  lemma UndefinedIsDangling(p: Profile, services: Services, i: uint16, reportMap: Schema)
    requires i < |services|
    ensures AnyDangling(BuildProfiles(p, services, i + 1).sources, i, reportMap)
      <==> Undefined(p.sources, services, i, reportMap)
  {
    hide BuildProfiles, ReferenceOf, Rebuilt, NamesNothing, AnyDangling;
    var q := BuildProfiles(p, services, i + 1);
    AnyNamesNothing(q.sources, i, reportMap);
    forall h: uint16
      ensures ReferenceOf(q.sources, h) == Rebuilt(ReferenceOf(p.sources, h), services, i + 1, h)
    {
      ProfilesRelist(p, services, i + 1, h);
    }
  }

  lemma ServiceFinds(p: Profile, service: Service, instance: uint16)
    ensures var q := BuildService(p, service, instance);
      q.degraded == (
        || p.degraded
        || (service.uuid == 0x1812
            && (|| Missing(p.sources, service, |service.characteristics|)
                || (instance in p.contexts && p.contexts[instance].reportMap.Some?
                    && AnyDangling(q.sources, instance, p.contexts[instance].reportMap.value)))))
  {
    hide BuildCharacteristics, AnyDangling, Missing;
    CharacteristicsFind(p, service, instance, |service.characteristics|);
    BuildCharacteristicsFrame(p, service, instance, |service.characteristics|);
  }

  /** Building the profiles has a finding exactly if a HID service has a missing or undefined reference. */
  lemma {:induction false} ProfilesFind(p: Profile, services: Services, n: nat)
    requires n <= |services|
    ensures BuildProfiles(p, services, n).degraded
      <==> p.degraded || exists i: uint16 | 0 <= i < n :: BadReference(p.sources, p.contexts, services, i)
  {
    hide BuildService, Missing, Undefined, AnyDangling, ReferencesOk;
    if n > 0 {
      var before, i := BuildProfiles(p, services, n - 1), n - 1;
      ProfilesFind(p, services, n - 1);
      ServiceFinds(before, services[i], i);
      BuildIsSound(p, services, n - 1);
      MissingStays(p, services, n - 1, services[i]);
      if i in p.contexts && p.contexts[i].reportMap.Some? {
        UndefinedIsDangling(p, services, i, p.contexts[i].reportMap.value);
      }
      assert BuildProfiles(p, services, n).degraded
        <==> before.degraded || BadReference(p.sources, p.contexts, services, i);
    }
  }

  // ---------- whose notifications are input ----------

  /** The handle is one of an input characteristic of the first `n` services. */
  predicate InputHandle(services: Services, n: nat, handle: uint16)
    requires n <= |services|
  {
    exists i | 0 <= i < n :: services[i].uuid == 0x1812 && Listed(services[i], |services[i].characteristics|, handle)
  }

  lemma {:induction false} CharacteristicsHandles(p: Profile, service: Service, instance: uint16, n: nat, h: uint16)
    requires n <= |service.characteristics|
    ensures h in BuildCharacteristics(p, service, instance, n).handles <==> h in p.handles || Listed(service, n, h)
  {
    hide Listed, BootListed;
    if n == 0 {
      ListedNone(service, h);
    } else {
      CharacteristicsHandles(p, service, instance, n - 1, h);
      ListedNext(service, n, h);
    }
  }

  /** Building the profiles adds exactly the handles of the input characteristics of HID services. */
  lemma {:induction false} ProfilesHandles(p: Profile, services: Services, n: nat, h: uint16)
    requires n <= |services|
    ensures h in BuildProfiles(p, services, n).handles <==> h in p.handles || InputHandle(services, n, h)
  {
    hide BuildCharacteristics, Listed, AnyDangling;
    if n > 0 {
      ProfilesHandles(p, services, n - 1, h);
      CharacteristicsHandles(BuildProfiles(p, services, n - 1), services[n - 1], n - 1,
                             |services[n - 1].characteristics|, h);
    }
  }
}
