/** HIDReportMap of hid_parser.cpp: the object that the descriptor compiler fills and that
    decodes reports in place, proved against the functions of HidCompiler and HidDecoder. */
module HidReportMap {
  import opened Integers
  import Bits
  import opened HidItems
  import opened HidSchema
  import opened HidCompiler
  import opened HidDecoder
  import opened HidIsolation

  // ---------- facts for the compiler loop ----------

  /** The reports that AddField works on: the field's report is there, or is made. */
  function ReportsFor(s: Schema, kind: ReportKind, id: uint8): seq<Report> {
    if ReportIndex(s.reports, kind, id) < |s.reports| then s.reports else s.reports + [Report(kind, id, 0, [])]
  }

  lemma FieldRefused(m: Machine, kind: ReportKind, raw: uint32)
    requires var g, s := m.global, m.schema;
      var r, bits := ReportIndex(s.reports, kind, g.reportId), g.reportSize * g.reportCount;
      || g.reportSize == 0 || g.reportSize > 32 || g.reportCount == 0 || g.reportCount > MAX_REPORT_COUNT
      || m.local.delimiterOpen || (r == |s.reports| && |s.reports| >= MAX_REPORTS) || |s.fields| >= MAX_FIELDS
      || bits > MAX_REPORT_BITS || ReportsFor(s, kind, g.reportId)[r].bitSize > MAX_REPORT_BITS - bits
    ensures AddField(m, kind, raw).None?
  {
    hide NewField;
  }

  lemma FieldAccepted(m: Machine, kind: ReportKind, raw: uint32, r: nat, field: Field)
    requires var g, s := m.global, m.schema;
      && 1 <= g.reportSize <= 32 && 1 <= g.reportCount <= MAX_REPORT_COUNT && !m.local.delimiterOpen
      && r == ReportIndex(s.reports, kind, g.reportId) && (r < |s.reports| || |s.reports| < MAX_REPORTS)
      && |s.fields| < MAX_FIELDS
      && var report := ReportsFor(s, kind, g.reportId)[r];
         && report.bitSize + g.reportSize * g.reportCount <= MAX_REPORT_BITS
         && field == NewField(m, kind, raw, report.bitSize)
    ensures var s := m.schema; var reports := ReportsFor(s, kind, m.global.reportId);
      var report := reports[r].(bitSize := reports[r].bitSize + m.global.reportSize * m.global.reportCount,
                                fieldIds := reports[r].fieldIds + [|s.fields|]);
      AddField(m, kind, raw)
        == Some(m.(schema := s.(reports := reports[r := report], fields := s.fields + [field]), local := NO_LOCALS))
  {
    hide NewField;
  }

  /** The items read so far are the front of the stream, and the machine has run over them. */
  ghost predicate Progress(data: seq<uint8>, items: seq<Item>, m: Machine) {
    && m.offset <= |data| && AllLegal(items) && EncodeAll(items) == data[..m.offset]
    && Run(INITIAL, items, |items|) == Some(m)
  }

  lemma StepProgress(data: seq<uint8>, items: seq<Item>, m: Machine, item: Item)
    requires Progress(data, items, m) && m.offset < |data| && NextItem(data[m.offset..]) == Some(item)
    ensures Step(m, item).Some? ==> Progress(data, items + [item], Step(m, item).value)
    ensures Step(m, item).None? ==> Compile(data).None?
  {
    hide Step, EncodeAll, AllLegal, Tokenise, Compile, NextItem;
    WalkStep(data, items, m.offset, item);
    RunPrefix(INITIAL, items, [item], |items|);
    if Step(m, item).None? {
      FailingItem(data, items + [item], m.offset + Length(item));
    } else {
      StepOffset(m, item);
    }
  }

  lemma FailingItem(data: seq<uint8>, items: seq<Item>, offset: nat)
    requires AllLegal(items) && offset <= |data| && EncodeAll(items) == data[..offset]
    requires Run(INITIAL, items, |items|).None?
    ensures Compile(data).None?
  {
    hide Run, EncodeAll, AllLegal, Tokenise, Finish;
    assert data == data[..offset] + data[offset..];
    TokeniseBehind(items, data[offset..]);
    if Tokenise(data).Some? {
      var rest := Tokenise(data[offset..]).value;
      RunPrefix(INITIAL, items, rest, |items|);
      FailureStays(INITIAL, items + rest, |items|, |items + rest|);
    }
  }

  lemma TruncatedFails(data: seq<uint8>, items: seq<Item>, m: Machine)
    requires Progress(data, items, m) && m.offset < |data| && NextItem(data[m.offset..]).None?
    ensures Compile(data).None?
  {
    hide Run, Tokenise, EncodeAll;
    StoppedWalk(data, items, m.offset);
  }

  lemma EndOfData(data: seq<uint8>, items: seq<Item>, m: Machine)
    requires Progress(data, items, m) && m.offset == |data| && 0 < |data| <= MAX_DESCRIPTOR_BYTES
    ensures Compile(data) == Finish(m)
  {
    hide Run, Tokenise, EncodeAll, Finish;
    StoppedWalk(data, items, m.offset);
  }

  lemma AcceptedIsUsable(data: seq<uint8>)
    requires Compile(data).Some?
    ensures WellFormed(Compile(data).value) && RuntimeFits(Compile(data).value, map[])
  {
    AcceptedIsWellFormed(data);
    hide WellFormed, Compile;
  }

  class HIDReportMap {
    var reports: seq<Report>
    var fields: seq<Field>
    var collections: seq<Collection>
    var diagnostics: seq<Diagnostic>
    var usesReportIds: bool
    var runtime: Runtime

    function Layout(): Schema
      reads this
    {
      Schema(reports, fields, collections, diagnostics, usesReportIds)
    }

    ghost predicate Valid()
      reads this
    {
      WellFormed(Layout()) && RuntimeFits(Layout(), runtime)
    }

    constructor ()
      ensures Layout() == EMPTY_SCHEMA && runtime == map[]
    {
      reports, fields, collections, diagnostics := [], [], [], [];
      usesReportIds := false;
      runtime := map[];
    }

    /** `find_report`. */
    method FindReport(kind: ReportKind, reportId: uint8) returns (index: Option<nat>)
      ensures index == (var r := ReportIndex(reports, kind, reportId); if r == |reports| then None else Some(r))
    {
      for i := 0 to |reports|
        invariant ReportIndex(reports, kind, reportId) == ReportIndex(reports, kind, reportId, i)
      {
        if reports[i].kind == kind && reports[i].reportId == reportId {
          return Some(i);
        }
      }
      index := None;
    }

    /** `find_or_add_report`: None when the table is full. */
    method FindOrAddReport(kind: ReportKind, reportId: uint8) returns (index: Option<nat>)
      modifies this`reports
      ensures var r := ReportIndex(old(reports), kind, reportId);
        if r < |old(reports)| then index == Some(r) && reports == old(reports)
        else if |old(reports)| >= MAX_REPORTS then index == None && reports == old(reports)
        else index == Some(r) && reports == old(reports) + [Report(kind, reportId, 0, [])]
    {
      index := FindReport(kind, reportId);
      if index.Some? || |reports| >= MAX_REPORTS {
        return;
      }
      reports := reports + [Report(kind, reportId, 0, [])];
      index := Some(|reports| - 1);
    }

    /** A Collection item. */
    method AddCollection(raw: uint32, local: Local, stack: seq<uint16>, ghost m: Machine)
      returns (ok: bool, stack': seq<uint16>)
      requires m.schema == Layout() && m.local == local && m.collectionStack == stack
      modifies this`collections
      ensures ok <==> OpenCollection(m, raw).Some?
      ensures ok ==>
        OpenCollection(m, raw).value == m.(schema := Layout(), collectionStack := stack', local := NO_LOCALS)
    {
      stack' := stack;
      if |collections| >= MAX_COLLECTIONS || |stack| >= MAX_COLLECTION_DEPTH {
        return false, stack;
      }
      var usage := NO_USAGE;
      if local.usageSets[0] != [] {
        usage := local.usageSets[0][0];
      } else if local.hasUsageMinimum {
        usage := local.usageMinimum;
      }
      var aliases := [];
      for k := 1 to |local.usageSets|
        invariant aliases == Flatten(local.usageSets[1..k])
      {
        aliases := aliases + local.usageSets[k];
        assert local.usageSets[1..k + 1][..k - 1] == local.usageSets[1..k];
      }
      assert local.usageSets[1..|local.usageSets|] == local.usageSets[1..];
      var collection := Collection(|collections|, Top(stack), raw % 0x100, usage, aliases);
      collections := collections + [collection];
      return true, stack + [|collections| - 1];
    }

    /** An Input, Output or Feature item. */
    method AddFieldItem(kind: ReportKind, raw: uint32, global: Global, local: Local, stack: seq<uint16>,
                        ghost m: Machine)
      returns (ok: bool)
      requires m.schema == Layout() && m.global == global && m.local == local && m.collectionStack == stack
      modifies this`reports, this`fields
      ensures ok <==> AddField(m, kind, raw).Some?
      ensures ok ==> AddField(m, kind, raw).value == m.(schema := Layout(), local := NO_LOCALS)
    {
      hide ReportIndex, AddField, Top;
      if global.reportSize == 0 || global.reportSize > 32 || global.reportCount == 0
         || global.reportCount > MAX_REPORT_COUNT {
        FieldRefused(m, kind, raw);
        return false;
      }
      if local.delimiterOpen {
        FieldRefused(m, kind, raw);
        return false;
      }
      var index := FindOrAddReport(kind, global.reportId);
      if index == None || |fields| >= MAX_FIELDS {
        FieldRefused(m, kind, raw);
        return false;
      }
      var r := index.value;
      var fieldBits := global.reportSize * global.reportCount;
      if fieldBits > MAX_REPORT_BITS || reports[r].bitSize > MAX_REPORT_BITS - fieldBits {
        FieldRefused(m, kind, raw);
        return false;
      }
      var field := Field(|fields|, kind, global.reportId, Top(stack), reports[r].bitSize,
                         global.reportSize, global.reportCount, raw % 0x200, global.logical, global.physical,
                         global.unitExponent, global.unit, local.usageSets[0], local.usageSets[1..],
                         local.usageMinimum, local.usageMaximum, local.hasUsageMinimum && local.hasUsageMaximum,
                         local.strings.Collected(), local.designators.Collected());
      FieldAccepted(m, kind, raw, r, field);
      reports := reports[r := reports[r].(bitSize := reports[r].bitSize + fieldBits,
                                          fieldIds := reports[r].fieldIds + [field.id])];
      fields := fields + [field];
      ok := true;
    }

    /** The switch over the tags of short items. */
    method ApplyShortItem(prefix: uint8, size: nat, raw: uint32, itemOffset: nat, global: Global, local: Local,
                          globalStack: seq<Global>, collectionStack: seq<uint16>)
      returns (ok: bool, global': Global, local': Local, globalStack': seq<Global>, collectionStack': seq<uint16>)
      modifies this`reports, this`fields, this`collections, this`diagnostics, this`usesReportIds
      ensures var m := Machine(global, local, globalStack, collectionStack, old(Layout()), itemOffset);
        && (ok <==> ShortItem(m, prefix, size, raw).Some?)
        && (ok ==> ShortItem(m, prefix, size, raw).value
                   == Machine(global', local', globalStack', collectionStack', Layout(), itemOffset))
    {
      hide OpenCollection, AddField, SetGlobal, SetLocal;
      ok, global', local', globalStack', collectionStack' := true, global, local, globalStack, collectionStack;
      ghost var m := Machine(global, local, globalStack, collectionStack, Layout(), itemOffset);
      var tag := TagOf(prefix);
      if IsGlobalValue(tag) {
        var changed := SetGlobal(global, prefix, raw);
        if changed == None {
          ok := false;
        } else {
          global' := changed.value;
        }
      } else if tag == REPORT_ID {
        if raw == 0 || raw > 0xFF {
          ok := false;
        } else {
          global' := global.(reportId := raw);
          usesReportIds := true;
        }
      } else if tag == PUSH {
        if |globalStack| >= MAX_GLOBAL_STACK_DEPTH {
          ok := false;
        } else {
          globalStack' := globalStack + [global];
        }
      } else if tag == POP {
        if globalStack == [] {
          ok := false;
        } else {
          global' := globalStack[|globalStack| - 1];
          globalStack' := globalStack[..|globalStack| - 1];
        }
      } else if IsLocalItem(tag) {
        var changed := SetLocal(local, global.usagePage, tag, size, raw);
        if changed == None {
          ok := false;
        } else {
          local' := changed.value;
        }
      } else if tag == COLLECTION {
        ok, collectionStack' := AddCollection(raw, local, collectionStack, m);
        local' := NO_LOCALS;
      } else if tag == END_COLLECTION {
        if collectionStack == [] {
          ok := false;
        } else {
          collectionStack' := collectionStack[..|collectionStack| - 1];
          local' := NO_LOCALS;
        }
      } else if tag == INPUT || tag == OUTPUT || tag == FEATURE {
        ok := AddFieldItem(KindOf(tag), raw, global, local, collectionStack, m);
        local' := NO_LOCALS;
      } else {
        diagnostics := diagnostics + [UnknownItem(itemOffset, prefix, raw)];
        if tag % 16 == MAIN {
          local' := NO_LOCALS;
        }
      }
    }

    /** `parse_report_map_data`: a map for exactly the descriptors that compile, null otherwise. */
    static method ParseReportMapData(data: Buffer) returns (map_: HIDReportMap?)
      ensures map_ == null <==> data.Null? || Compile(data.bytes).None?
      ensures map_ != null ==>
        && fresh(map_) && map_.Valid() && map_.runtime == map[]
        && Compile(data.bytes) == Some(map_.Layout())
    {
      hide Compile, Step, Progress, WellFormed, Tokenise, Encode, AllLegal, EncodeAll, ShortItem, LittleEndian,
        RuntimeFits;
      if data.Null? || |data.bytes| == 0 || |data.bytes| > MAX_DESCRIPTOR_BYTES {
        RejectedLength(data);
        return null;
      }
      var bytes := data.bytes;
      var result := new HIDReportMap();
      var global, local: Local := INITIAL_GLOBAL, NO_LOCALS;
      var globalStack: seq<Global>, collectionStack: seq<uint16> := [], [];
      var offset := 0;
      ghost var items := [];
      StartProgress(bytes);
      while offset < |bytes|
        invariant fresh(result) && result.runtime == map[]
        invariant offset <= |bytes|
        invariant Progress(bytes, items, Machine(global, local, globalStack, collectionStack, result.Layout(), offset))
      {
        ghost var m := Machine(global, local, globalStack, collectionStack, result.Layout(), offset);
        var itemOffset := offset;
        var prefix := bytes[offset];
        var cursor := offset + 1;
        if prefix == LONG_ITEM {
          if |bytes| - cursor < 2 {
            TruncatedFails(bytes, items, m);
            return null;
          }
          var payloadSize, tag := bytes[cursor], bytes[cursor + 1];
          cursor := cursor + 2;
          if |bytes| - cursor < payloadSize {
            TruncatedFails(bytes, items, m);
            return null;
          }
          ghost var item := Item.Long(tag, bytes[cursor..cursor + payloadSize]);
          SliceOfRest(bytes, itemOffset, 3, payloadSize);
          StepLong(m, item);
          StepProgress(bytes, items, m, item);
          result.diagnostics := result.diagnostics + [LongItem(itemOffset, tag, payloadSize)];
          offset := cursor + payloadSize;
          items := items + [item];
          continue;
        }
        var itemSize := DataSize(prefix);
        if |bytes| - cursor < itemSize {
          TruncatedFails(bytes, items, m);
          return null;
        }
        var payload := bytes[cursor..cursor + itemSize];
        var raw := ReadUnsignedItem(payload);
        ghost var item := Item.Short(prefix, payload);
        SliceOfRest(bytes, itemOffset, 1, itemSize);
        StepShort(m, item);
        StepProgress(bytes, items, m, item);
        var ok;
        ok, global, local, globalStack, collectionStack :=
          result.ApplyShortItem(prefix, itemSize, raw, itemOffset, global, local, globalStack, collectionStack);
        if !ok {
          return null;
        }
        offset := cursor + itemSize;
        items := items + [item];
      }
      ghost var m := Machine(global, local, globalStack, collectionStack, result.Layout(), offset);
      EndOfData(bytes, items, m);
      if collectionStack != [] {
        return null;
      }
      if globalStack != [] {
        result.diagnostics := result.diagnostics + [OpenPush(|bytes|)];
      }
      if result.reports == [] {
        return null;
      }
      assert Compile(bytes) == Some(result.Layout());
      AcceptedIsUsable(bytes);
      map_ := result;
    }

    /** `application_usage`: climbs the parents until it meets an application collection. */
    method FindApplicationUsage(collectionId: uint16) returns (usage: Usage)
      requires forall c | 0 <= c < |collections| :: CollectionOk(collections, c)
      ensures usage == ApplicationUsage(collections, collectionId)
    {
      var current: nat := collectionId;
      while current != NO_PARENT && current < |collections|
        invariant ApplicationUsage(collections, current) == ApplicationUsage(collections, collectionId)
        decreases if current == NO_PARENT then -1 else current
      {
        assert CollectionOk(collections, current);
        if collections[current].kind == APPLICATION {
          return collections[current].usage;
        }
        ParentUsage(collections, current);
        current := collections[current].parent;
      }
      usage := NO_USAGE;
    }

    /** The scalar loop of `parse_input_` for one variable field. */
    method ParseVariable(report: Report, field: Field, data: seq<uint8>) returns (values: seq<Value>)
      requires WellFormed(Layout()) && field.id in runtime && |runtime[field.id].lastValues| == field.reportCount
      modifies this`runtime
      ensures values
        == ScalarEvents(Layout(), report, field, old(runtime)[field.id].lastValues, data, field.reportCount)
      ensures runtime == old(runtime)[field.id := old(runtime)[field.id].(
        lastValues := NewLasts(field, old(runtime)[field.id].lastValues, data, field.reportCount))]
    {
      hide ApplicationUsage, WellFormed, Bits.ReadField;
      var lasts := runtime[field.id].lastValues;
      values := [];
      NewLastsDone(field, lasts, data);
      for index := 0 to field.reportCount
        invariant field.id in runtime
        invariant values == ScalarEvents(Layout(), report, field, lasts, data, index)
        invariant runtime == old(runtime)[field.id := old(runtime)[field.id].(
          lastValues := NewLasts(field, lasts, data, index))]
      {
        NewLastsNext(field, lasts, data, index);
        var raw := ReadScalar(field, data, index);
        if raw == None || raw.value < field.logical.minimum || raw.value > field.logical.maximum {
          continue;
        }
        var rawValue := raw.value;
        if (field.IsRelative() && rawValue == 0)
           || (!field.IsRelative() && runtime[field.id].lastValues[index] == rawValue) {
          continue;
        }
        var usage := field.UsageAt(index, true);
        CollectionsOk(Layout());
        var application := FindApplicationUsage(field.collectionId);
        var aggregation := Passthrough;
        if field.IsRelative() {
          aggregation := Sum;
        } else {
          var span := if field.logical.maximum >= field.logical.minimum
                      then field.logical.maximum - field.logical.minimum else 0;
          var discretePage := usage.page == 0x07 || usage.page == 0x09 || usage.page == 0x0C;
          if !discretePage && span > 16 {
            aggregation := Latest;
          }
        }
        values := values + [Value(usage, application, rawValue, rawValue, 0, field.Position(index),
                                  field.collectionId, report.reportId, field.IsRelative(), aggregation)];
        runtime := runtime[field.id := runtime[field.id].(
          lastValues := runtime[field.id].lastValues[index := rawValue])];
      }
    }

    method ReadScalar(field: Field, data: seq<uint8>, index: nat) returns (raw: Option<int>)
      ensures raw == Bits.ReadField(data, field.Position(index), field.reportSize, field.IsSigned())
    {
      raw := Bits.ReadBits(data, field.Position(index), field.reportSize, field.IsSigned());
    }

    /** The slot loop of `parse_input_` for one array field. */
    method ReadSlots(field: Field, data: seq<uint8>) returns (current: seq<Active>)
      ensures current == Current(field, data, field.reportCount)
    {
      hide Bits.ReadField, Emplace;
      current := [];
      for index := 0 to field.reportCount
        invariant current == Current(field, data, index)
      {
        var raw := ReadScalar(field, data, index);
        if raw == None || raw.value < field.logical.minimum || raw.value > field.logical.maximum {
          continue;
        }
        var usage := field.UsageAt((raw.value - field.logical.minimum) % 0x1_0000_0000, false);
        if usage.page != 0 && usage.usage != 0 {
          current := Emplace(current, Active(usage, raw.value));
        }
      }
    }

    /** The two matching loops of `parse_input_` for one array field. */
    method ParseArray(report: Report, field: Field, data: seq<uint8>) returns (values: seq<Value>)
      requires WellFormed(Layout()) && field.id in runtime
      modifies this`runtime
      ensures values == ArrayEvents(Layout(), report, field, old(runtime)[field.id].active,
                                    Current(field, data, field.reportCount))
      ensures runtime == old(runtime)[field.id := old(runtime)[field.id].(
        active := Current(field, data, field.reportCount))]
    {
      hide WellFormed, ApplicationUsage, Current, FindUsage;
      CollectionsOk(Layout());
      var current := ReadSlots(field, data);
      var application := FindApplicationUsage(field.collectionId);
      var active := runtime[field.id].active;
      values := [];
      var previous := active;
      for k := 0 to |current|
        invariant runtime == old(runtime)
        invariant previous == Remaining(current, active, k)
        invariant values == Presses(Layout(), report, field, Unmatched(current, active, k))
      {
        var found := FindUsage(previous, current[k].usage);
        if found < |previous| {
          previous := RemoveAt(previous, found);
        } else {
          values := values + [Value(current[k].usage, application, 1, current[k].raw, 0, field.bitOffset,
                                    field.collectionId, report.reportId, false, Passthrough)];
        }
      }
      ghost var pressed := values;
      var remaining := current;
      for k := 0 to |active|
        invariant runtime == old(runtime)
        invariant remaining == Remaining(active, current, k)
        invariant values == pressed + Releases(Layout(), report, field, Unmatched(active, current, k))
      {
        var found := FindUsage(remaining, active[k].usage);
        if found < |remaining| {
          remaining := RemoveAt(remaining, found);
        } else {
          values := values + [Value(active[k].usage, application, 0, 0, 0, field.bitOffset,
                                    field.collectionId, report.reportId, false, Passthrough)];
        }
      }
      runtime := runtime[field.id := runtime[field.id].(active := current)];
    }

    /** One turn of the field loop of `parse_input_`. */
    method ParseField(report: Report, field: Field, data: seq<uint8>) returns (values: seq<Value>)
      requires WellFormed(Layout())
      requires !field.IsConstant() ==> |RuntimeOf(runtime, field).lastValues| == field.reportCount
      modifies this`runtime
      ensures values == FieldEvents(Layout(), report, field, RuntimeOf(old(runtime), field), data)
      ensures runtime == (if field.IsConstant() then old(runtime)
                          else old(runtime)[field.id := FieldAfter(field, RuntimeOf(old(runtime), field), data)])
    {
      hide WellFormed, ScalarEvents, NewLasts, ArrayEvents, Current;
      values := [];
      if field.IsConstant() {
        return;
      }
      if field.id !in runtime {
        runtime := runtime[field.id := FreshRuntime(field)];
      }
      if field.IsVariable() {
        values := ParseVariable(report, field, data);
      } else {
        values := ParseArray(report, field, data);
      }
    }

    /** `parse_input_`: the fields of a report in their order. */
    method ParseInput(report: Report, data: seq<uint8>) returns (values: seq<Value>)
      requires Valid() && Linked(fields, report)
      modifies this`runtime
      ensures Valid()
      ensures values == ReportEvents(Layout(), report, old(runtime), data, |report.fieldIds|)
      ensures runtime == RuntimeAfter(Layout(), report, old(runtime), data, |report.fieldIds|)
    {
      WellFormedIds(Layout());
      hide WellFormed, RuntimeFits, FieldEvents, FieldAfter, RuntimeOf, ReportEvents, RuntimeAfter, IdsMatch;
      ghost var layout, start := Layout(), runtime;
      StartReport(layout, report, start, data);
      values := [];
      for k := 0 to |report.fieldIds|
        invariant Layout() == layout
        invariant values == ReportEvents(layout, report, start, data, k)
        invariant runtime == RuntimeAfter(layout, report, start, data, k)
      {
        RuntimeKeepsFitting(layout, report, start, data, k);
        FitsAt(layout, runtime, report.fieldIds[k]);
        NextField(layout, report, start, data, k);
        var more := ParseField(report, fields[report.fieldIds[k]], data);
        values := values + more;
      }
      RuntimeKeepsFitting(layout, report, start, data, |report.fieldIds|);
    }

    /** `parse`: routes a payload, decodes it and stamps the sender's handle. */
    method Parse(source: Source, payload: Buffer) returns (values: seq<Value>, recognized: bool, status: Status)
      requires Valid() && AllLinked(Layout())
      modifies this`runtime
      ensures Valid()
      ensures values == ParseEvents(Layout(), old(runtime), source, payload)
      ensures runtime == ParseRuntime(Layout(), old(runtime), source, payload)
      ensures var route := RouteOf(Layout(), source, payload);
        status == route.status && recognized == (route.Decode? || route.recognized)
    {
      hide WellFormed, ReportEvents, RuntimeAfter, RuntimeFits;
      if payload.Null? && payload.length != 0 {
        return [], false, InvalidPayload;
      }
      if source.uuid == BOOT_KEYBOARD || source.uuid == BOOT_MOUSE {
        return [], false, BootReport;
      }
      if source.hasReportType && source.reportType != 1 {
        return [], false, KindMismatch;
      }
      var reportId := if source.hasReportId then source.reportId else 0;
      var found := FindReport(Input, reportId);
      if found == None {
        return [], false, SchemaMissing;
      }
      var report := reports[found.value];
      var data := if payload.Null? then [] else payload.bytes;
      var expected := report.ByteSize();
      if |data| < expected {
        return [], true, Status.Short;
      }
      status := if |data| == expected then Exact else Status.Long;
      recognized := true;
      values := ParseInput(report, data);
      values := Stamp(values, source.handle);
    }

    /** `reset_runtime_state`. */
    method ResetRuntimeState()
      modifies this`runtime
      ensures runtime == map[]
    {
      runtime := map[];
    }
  }

  lemma StartReport(schema: Schema, report: Report, runtime: Runtime, data: seq<uint8>)
    requires Linked(schema.fields, report)
    ensures ReportEvents(schema, report, runtime, data, 0) == []
    ensures RuntimeAfter(schema, report, runtime, data, 0) == runtime
  {
  }

  lemma NextField(schema: Schema, report: Report, runtime: Runtime, data: seq<uint8>, k: nat)
    requires Linked(schema.fields, report) && k < |report.fieldIds|
    ensures var before, field := RuntimeAfter(schema, report, runtime, data, k), schema.fields[report.fieldIds[k]];
      && ReportEvents(schema, report, runtime, data, k + 1)
         == ReportEvents(schema, report, runtime, data, k)
            + FieldEvents(schema, report, field, RuntimeOf(before, field), data)
      && RuntimeAfter(schema, report, runtime, data, k + 1)
         == (if field.IsConstant() then before
             else before[field.id := FieldAfter(field, RuntimeOf(before, field), data)])
  {
    hide FieldEvents, FieldAfter, RuntimeOf;
  }

  lemma RejectedLength(data: Buffer)
    requires data.Null? || |data.bytes| == 0 || |data.bytes| > MAX_DESCRIPTOR_BYTES
    ensures data.Bytes? ==> Compile(data.bytes).None?
  {
  }

  lemma StartProgress(data: seq<uint8>)
    ensures Progress(data, [], INITIAL)
  {
    EncodeAllEmpty([]);
    RunNone(INITIAL, []);
  }

  lemma StepLong(m: Machine, item: Item)
    requires item.Long?
    ensures Step(m, item) == Some(m.(
      schema := m.schema.(diagnostics := m.schema.diagnostics + [LongItem(m.offset, item.tag, |item.payload|)]),
      offset := m.offset + 3 + |item.payload|))
  {
  }

  lemma StepShort(m: Machine, item: Item)
    requires item.Short? && |item.data| <= 4
    ensures LittleEndian(item.data) < 0x1_0000_0000
    ensures var next := ShortItem(m, item.prefix, |item.data|, LittleEndian(item.data));
      Step(m, item) == (if next.None? then None else Some(next.value.(offset := m.offset + 1 + |item.data|)))
  {
    hide ShortItem;
    LittleEndianBound(item.data);
    Pow2Monotone(8 * |item.data|, 32);
    Pow2Values();
  }

  lemma CollectionsOk(schema: Schema)
    requires WellFormed(schema)
    ensures forall c | 0 <= c < |schema.collections| :: CollectionOk(schema.collections, c)
  {
  }

  lemma ParentUsage(collections: seq<Collection>, c: nat)
    requires c < |collections| && c != NO_PARENT && CollectionOk(collections, c)
    requires collections[c].kind != APPLICATION
    ensures ApplicationUsage(collections, c) == ApplicationUsage(collections, collections[c].parent)
  {
  }

  lemma NewLastsNext(field: Field, lasts: seq<int>, data: seq<uint8>, n: nat)
    requires n < |lasts|
    ensures NewLasts(field, lasts, data, n)[n] == lasts[n]
    ensures NewLasts(field, lasts, data, n + 1)
      == NewLasts(field, lasts, data, n)[n := NewLast(field, lasts, data, n)]
    ensures NewLast(field, lasts, data, n) == lasts[n] ==>
      NewLasts(field, lasts, data, n + 1) == NewLasts(field, lasts, data, n)
  {
    hide NewLast;
  }

  lemma NewLastsDone(field: Field, lasts: seq<int>, data: seq<uint8>)
    ensures NewLasts(field, lasts, data, 0) == lasts
  {
  }
}
