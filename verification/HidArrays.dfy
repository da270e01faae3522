/** Array fields over whole runs: their presses and releases are the multiset difference between
    the usages that two successive reports assert. */
module HidArrays {
  import opened Integers
  import opened HidSchema
  import opened HidDecoder
  import opened HidReplay

  function UsagesOf(entries: seq<Active>): (usages: seq<Usage>)
    ensures |usages| == |entries|
  {
    seq(|entries|, i requires 0 <= i < |entries| => entries[i].usage)
  }

  function Held(entries: seq<Active>): multiset<Usage> {
    multiset(UsagesOf(entries))
  }

  /** The usages that the first `n` slots of an array field assert, in no order. */
  function SlotUsages(field: Field, data: seq<uint8>, n: nat): multiset<Usage> {
    if n == 0 then multiset{}
    else
      SlotUsages(field, data, n - 1)
        + (match Asserted(field, n - 1, data) case None => multiset{} case Some(e) => multiset{e.usage})
  }

  lemma HeldConcat(a: seq<Active>, b: seq<Active>)
    ensures Held(a + b) == Held(a) + Held(b)
  {
    assert UsagesOf(a + b) == UsagesOf(a) + UsagesOf(b);
  }

  lemma HeldOne(e: Active)
    ensures Held([e]) == multiset{e.usage}
  {
    assert UsagesOf([e]) == [e.usage];
  }

  lemma {:induction false} EmplaceHolds(entries: seq<Active>, e: Active)
    ensures Held(Emplace(entries, e)) == Held(entries) + multiset{e.usage}
  {
    hide Held;
    HeldOne(e);
    if entries == [] || UsageLess(e.usage, entries[0].usage) {
      HeldConcat([e], entries);
    } else {
      EmplaceHolds(entries[1..], e);
      HeldConcat([entries[0]], Emplace(entries[1..], e));
      HeldConcat([entries[0]], entries[1..]);
      assert entries == [entries[0]] + entries[1..];
    }
  }

  lemma {:induction false} CurrentHoldsSlots(field: Field, data: seq<uint8>, n: nat)
    ensures Held(Current(field, data, n)) == SlotUsages(field, data, n)
  {
    hide Held, Emplace, Asserted;
    if n == 0 {
      HeldNothing();
    } else {
      CurrentHoldsSlots(field, data, n - 1);
      if Asserted(field, n - 1, data).Some? {
        EmplaceHolds(Current(field, data, n - 1), Asserted(field, n - 1, data).value);
      }
    }
  }

  lemma HeldNothing()
    ensures Held([]) == multiset{}
  {
    assert UsagesOf([]) == [];
  }

  lemma {:induction false} FindHeld(entries: seq<Active>, usage: Usage)
    ensures FindUsage(entries, usage) < |entries| <==> usage in Held(entries)
  {
    hide Held;
    if entries == [] {
      HeldNothing();
    } else {
      FindHeld(entries[1..], usage);
      HeldOne(entries[0]);
      HeldConcat([entries[0]], entries[1..]);
      assert entries == [entries[0]] + entries[1..];
    }
  }

  lemma RemoveHeld(entries: seq<Active>, i: nat)
    requires i < |entries|
    ensures Held(RemoveAt(entries, i)) == Held(entries) - multiset{entries[i].usage}
  {
    hide Held;
    assert entries == entries[..i] + ([entries[i]] + entries[i + 1..]);
    HeldConcat(entries[..i], [entries[i]] + entries[i + 1..]);
    HeldConcat([entries[i]], entries[i + 1..]);
    HeldConcat(entries[..i], entries[i + 1..]);
    HeldOne(entries[i]);
  }

  lemma HeldNext(entries: seq<Active>, n: nat)
    requires 0 < n <= |entries|
    ensures Held(entries[..n]) == Held(entries[..n - 1]) + multiset{entries[n - 1].usage}
  {
    hide Held;
    HeldConcat(entries[..n - 1], [entries[n - 1]]);
    HeldOne(entries[n - 1]);
    assert entries[..n] == entries[..n - 1] + [entries[n - 1]];
  }

  lemma {:induction false} RemainingHeld(entries: seq<Active>, others: seq<Active>, n: nat)
    requires n <= |entries|
    ensures Held(Remaining(entries, others, n)) == Held(others) - Held(entries[..n])
  {
    hide Held, RemoveAt, FindUsage;
    if n == 0 {
      assert entries[..n] == [];
      HeldNothing();
    } else {
      var rest, u := Remaining(entries, others, n - 1), entries[n - 1].usage;
      RemainingHeld(entries, others, n - 1);
      HeldNext(entries, n);
      FindHeld(rest, u);
      if u in Held(rest) {
        RemoveHeld(rest, FindUsage(rest, u));
      }
    }
  }

  /** What finds no match is exactly the multiset difference. */
  lemma {:induction false} UnmatchedHeld(entries: seq<Active>, others: seq<Active>, n: nat)
    requires n <= |entries|
    ensures Held(Unmatched(entries, others, n)) == Held(entries[..n]) - Held(others)
  {
    hide Held, Remaining, FindUsage;
    if n == 0 {
      assert entries[..n] == [];
      HeldNothing();
    } else {
      var rest, e := Remaining(entries, others, n - 1), entries[n - 1];
      var before := Unmatched(entries, others, n - 1);
      UnmatchedHeld(entries, others, n - 1);
      RemainingHeld(entries, others, n - 1);
      HeldNext(entries, n);
      FindHeld(rest, e.usage);
      HeldConcat(before, [e]);
      HeldOne(e);
      assert before + [] == before;
    }
  }

  // ---------- counting emissions ----------

  /** The usages of the given emissions with the given value: 1 for presses, 0 for releases. */
  function Tally(events: seq<Value>, value: int): multiset<Usage> {
    if events == [] then multiset{}
    else
      var last := events[|events| - 1];
      Tally(events[..|events| - 1], value) + (if last.value == value then multiset{last.usage} else multiset{})
  }

  lemma {:induction false} TallyConcat(a: seq<Value>, b: seq<Value>, value: int)
    ensures Tally(a + b, value) == Tally(a, value) + Tally(b, value)
  {
    if b == [] {
      assert a + b == a;
    } else {
      assert (a + b)[..|a + b| - 1] == a + b[..|b| - 1];
      TallyConcat(a, b[..|b| - 1], value);
    }
  }

  lemma {:induction false} TallyPresses(schema: Schema, report: Report, field: Field, entries: seq<Active>)
    ensures Tally(Presses(schema, report, field, entries), 1) == Held(entries)
    ensures Tally(Presses(schema, report, field, entries), 0) == multiset{}
  {
    hide Held, ApplicationUsage;
    if entries == [] {
      HeldNothing();
    } else {
      var n := |entries| - 1;
      TallyPresses(schema, report, field, entries[..n]);
      HeldNext(entries, n + 1);
      assert entries[..n + 1] == entries;
      assert Presses(schema, report, field, entries)[..n] == Presses(schema, report, field, entries[..n]);
    }
  }

  lemma {:induction false} TallyReleases(schema: Schema, report: Report, field: Field, entries: seq<Active>)
    ensures Tally(Releases(schema, report, field, entries), 0) == Held(entries)
    ensures Tally(Releases(schema, report, field, entries), 1) == multiset{}
  {
    hide Held, ApplicationUsage;
    if entries == [] {
      HeldNothing();
    } else {
      var n := |entries| - 1;
      TallyReleases(schema, report, field, entries[..n]);
      HeldNext(entries, n + 1);
      assert entries[..n + 1] == entries;
      assert Releases(schema, report, field, entries)[..n] == Releases(schema, report, field, entries[..n]);
    }
  }

  /** One report: a usage is pressed as often as it is asserted now and was not before, and
      released as often as it was asserted before and is not now. */
  lemma ArrayDelta(schema: Schema, report: Report, field: Field, before: seq<Active>, now: seq<Active>)
    ensures Tally(ArrayEvents(schema, report, field, before, now), 1) == Held(now) - Held(before)
    ensures Tally(ArrayEvents(schema, report, field, before, now), 0) == Held(before) - Held(now)
  {
    hide Held, Tally, Unmatched, Presses, Releases;
    var pressed, released := Unmatched(now, before, |now|), Unmatched(before, now, |before|);
    UnmatchedHeld(now, before, |now|);
    UnmatchedHeld(before, now, |before|);
    assert now[..|now|] == now && before[..|before|] == before;
    TallyPresses(schema, report, field, pressed);
    TallyReleases(schema, report, field, released);
    TallyConcat(Presses(schema, report, field, pressed), Releases(schema, report, field, released), 0);
    TallyConcat(Presses(schema, report, field, pressed), Releases(schema, report, field, released), 1);
  }

  /** As long as the same usages are asserted, equally often, nothing happens. */
  lemma SameUsagesAreSilent(schema: Schema, report: Report, field: Field, before: seq<uint8>, now: seq<uint8>)
    requires SlotUsages(field, before, field.reportCount) == SlotUsages(field, now, field.reportCount)
    ensures ArrayEvents(schema, report, field, Current(field, before, field.reportCount),
                        Current(field, now, field.reportCount)) == []
  {
    hide Current, Held, Unmatched;
    var a, b := Current(field, before, field.reportCount), Current(field, now, field.reportCount);
    CurrentHoldsSlots(field, before, field.reportCount);
    CurrentHoldsSlots(field, now, field.reportCount);
    UnmatchedHeld(b, a, |b|);
    UnmatchedHeld(a, b, |a|);
    assert a[..|a|] == a && b[..|b|] == b;
    HoldsNothing(Unmatched(b, a, |b|));
    HoldsNothing(Unmatched(a, b, |a|));
  }

  /** The values of all slots of an array field, unreadable and out-of-range ones included. */
  function Slots(field: Field, data: seq<uint8>): (slots: seq<Option<int>>)
    ensures |slots| == field.reportCount
  {
    seq(field.reportCount, i requires 0 <= i < field.reportCount => Reading(field, i, data))
  }

  function SlotUsage(field: Field, slot: Option<int>): multiset<Usage> {
    match slot
    case None => multiset{}
    case Some(raw) =>
      var usage := field.UsageAt((raw - field.logical.minimum) % 0x1_0000_0000, false);
      if usage.page != 0 && usage.usage != 0 then multiset{usage} else multiset{}
  }

  function UsagesIn(field: Field, slots: seq<Option<int>>): multiset<Usage> {
    if slots == [] then multiset{} else UsagesIn(field, slots[..|slots| - 1]) + SlotUsage(field, slots[|slots| - 1])
  }

  lemma SlotAsserts(field: Field, data: seq<uint8>, k: nat)
    requires k < field.reportCount
    ensures SlotUsage(field, Slots(field, data)[k])
      == match Asserted(field, k, data) case None => multiset{} case Some(e) => multiset{e.usage}
  {
    hide Reading, Field.UsageAt;
  }

  lemma {:induction false} UsagesOfSlots(field: Field, data: seq<uint8>, n: nat)
    requires n <= field.reportCount
    ensures SlotUsages(field, data, n) == UsagesIn(field, Slots(field, data)[..n])
  {
    hide Asserted, Slots, SlotUsage, UsagesIn;
    if n == 0 {
      UsagesOfNone(field, Slots(field, data)[..n]);
    } else {
      UsagesOfSlots(field, data, n - 1);
      SlotAsserts(field, data, n - 1);
      UsagesOfNext(field, Slots(field, data), n);
    }
  }

  lemma UsagesOfNone(field: Field, slots: seq<Option<int>>)
    requires slots == []
    ensures UsagesIn(field, slots) == multiset{}
  {
  }

  lemma UsagesOfNext(field: Field, slots: seq<Option<int>>, n: nat)
    requires 0 < n <= |slots|
    ensures UsagesIn(field, slots[..n]) == UsagesIn(field, slots[..n - 1]) + SlotUsage(field, slots[n - 1])
  {
    hide SlotUsage;
    assert slots[..n][..n - 1] == slots[..n - 1];
  }

  lemma {:induction false} UsagesConcat(field: Field, a: seq<Option<int>>, b: seq<Option<int>>)
    ensures UsagesIn(field, a + b) == UsagesIn(field, a) + UsagesIn(field, b)
  {
    hide SlotUsage;
    if b == [] {
      assert a + b == a;
    } else {
      assert (a + b)[..|a + b| - 1] == a + b[..|b| - 1];
      UsagesConcat(field, a, b[..|b| - 1]);
    }
  }

  lemma TakeOut(field: Field, slots: seq<Option<int>>, k: nat)
    requires k < |slots|
    ensures var rest := slots[..k] + slots[k + 1..];
      && UsagesIn(field, slots) == UsagesIn(field, rest) + SlotUsage(field, slots[k])
      && multiset(slots) == multiset(rest) + multiset{slots[k]}
  {
    hide SlotUsage;
    var front, one, back := slots[..k], [slots[k]], slots[k + 1..];
    assert slots == front + one + back;
    UsagesConcat(field, front + one, back);
    UsagesConcat(field, front, one);
    UsagesConcat(field, front, back);
    OneSlot(field, slots[k]);
  }

  lemma OneSlot(field: Field, slot: Option<int>)
    ensures UsagesIn(field, [slot]) == SlotUsage(field, slot)
  {
    hide SlotUsage;
    assert [slot][..0] == [];
    assert UsagesIn(field, []) == multiset{};
  }

  /** The order of the slots does not matter. */
  lemma {:induction false} UsagesOfPermutation(field: Field, a: seq<Option<int>>, b: seq<Option<int>>)
    requires multiset(a) == multiset(b)
    ensures UsagesIn(field, a) == UsagesIn(field, b)
  {
    hide SlotUsage, UsagesIn;
    if a == [] {
      assert |multiset(b)| == 0;
      assert b == [];
    } else {
      var n := |a| - 1;
      assert a[n] in multiset(b);
      var k :| 0 <= k < |b| && b[k] == a[n];
      TakeOut(field, a, n);
      TakeOut(field, b, k);
      var rest := b[..k] + b[k + 1..];
      assert a[..n] + a[n + 1..] == a[..n];
      assert multiset(a[..n]) == multiset(a) - multiset{a[n]} == multiset(rest);
      UsagesOfPermutation(field, a[..n], rest);
    }
  }

  /** Reordering the slots of an array is not an event. */
  lemma PermutedSlotsAreSilent(schema: Schema, report: Report, field: Field, before: seq<uint8>, now: seq<uint8>)
    requires multiset(Slots(field, before)) == multiset(Slots(field, now))
    ensures ArrayEvents(schema, report, field, Current(field, before, field.reportCount),
                        Current(field, now, field.reportCount)) == []
  {
    hide ArrayEvents, Current, Slots, SlotUsages, UsagesIn;
    var n := field.reportCount;
    UsagesOfSlots(field, before, n);
    UsagesOfSlots(field, now, n);
    assert Slots(field, before)[..n] == Slots(field, before) && Slots(field, now)[..n] == Slots(field, now);
    UsagesOfPermutation(field, Slots(field, before), Slots(field, now));
    SameUsagesAreSilent(schema, report, field, before, now);
  }

  lemma HoldsNothing(entries: seq<Active>)
    requires Held(entries) == multiset{}
    ensures entries == []
  {
    assert |Held(entries)| == |entries|;
  }

  // ---------- whole runs ----------

  ghost predicate IsArray(schema: Schema, r: nat, i: nat) {
    && r < |schema.reports| && i < |schema.reports[r].fieldIds| && schema.reports[r].kind == Input
    && schema.reports[r].fieldIds[i] < |schema.fields|
    && !FieldAt(schema, r, i).IsConstant() && !FieldAt(schema, r, i).IsVariable()
  }

  /** The usages asserted by the last of the first `n` deliveries that was decoded as report `r`. */
  function LastAsserted(schema: Schema, r: nat, field: Field, run: seq<Delivery>, n: nat): multiset<Usage>
    requires n <= |run|
  {
    if n == 0 then multiset{}
    else
      var route := RouteOf(schema, run[n - 1].source, run[n - 1].payload);
      if route.Decode? && route.report == r then SlotUsages(field, route.bytes, field.reportCount)
      else LastAsserted(schema, r, field, run, n - 1)
  }

  /** The emissions of an array field over the first `n` deliveries. */
  function ArrayRun(schema: Schema, r: nat, i: nat, run: seq<Delivery>, n: nat): seq<Value>
    requires AllLinked(schema) && n <= |run|
    requires r < |schema.reports| && i < |schema.reports[r].fieldIds|
  {
    Select(RunEvents(schema, run, n), schema.reports[r].reportId, FieldAt(schema, r, i).bitOffset)
  }

  /** What one delivery emits for an array field. */
  function ArrayDelivery(schema: Schema, r: nat, i: nat, runtime: Runtime, d: Delivery): seq<Value>
    requires AllLinked(schema)
    requires r < |schema.reports| && i < |schema.reports[r].fieldIds|
  {
    Select(ParseEvents(schema, runtime, d.source, d.payload), schema.reports[r].reportId,
           FieldAt(schema, r, i).bitOffset)
  }

  lemma {:induction false} TallyStamped(values: seq<Value>, handle: uint16, value: int)
    ensures Tally(Stamp(values, handle), value) == Tally(values, value)
  {
    if values != [] {
      var n := |values| - 1;
      TallyStamped(values[..n], handle, value);
      assert Stamp(values, handle)[..n] == Stamp(values[..n], handle);
    }
  }

  lemma ArrayFieldEvents(schema: Schema, r: nat, i: nat, runtime: FieldRuntime, data: seq<uint8>)
    requires WellFormed(schema) && IsArray(schema, r, i)
    ensures var report, field := schema.reports[r], FieldAt(schema, r, i);
      var now := Current(field, data, field.reportCount);
      && field.bitOffset < field.End()
      && Select(FieldEvents(schema, report, field, runtime, data), report.reportId, field.bitOffset)
         == ArrayEvents(schema, report, field, runtime.active, now)
      && FieldAfter(field, runtime, data).active == now
  {
    FieldAtOk(schema, r, i);
    hide WellFormed, Select, Current, Unmatched, ApplicationUsage;
    var report, field := schema.reports[r], FieldAt(schema, r, i);
    ScalarInsideField(field, 0);
    SelectAll(ArrayEvents(schema, report, field, runtime.active, Current(field, data, field.reportCount)),
              report.reportId, field.bitOffset);
  }

  lemma ArrayDeliveryDelta(schema: Schema, r: nat, i: nat, runtime: Runtime, d: Delivery)
    requires WellFormed(schema) && AllLinked(schema) && IsArray(schema, r, i)
    ensures var field, route := FieldAt(schema, r, i), RouteOf(schema, d.source, d.payload);
      var before := Held(RuntimeOf(runtime, field).active);
      var now := if route.Decode? && route.report == r
                 then SlotUsages(field, route.bytes, field.reportCount) else before;
      && Held(RuntimeOf(ParseRuntime(schema, runtime, d.source, d.payload), field).active) == now
      && Tally(ArrayDelivery(schema, r, i, runtime, d), 1) == now - before
      && Tally(ArrayDelivery(schema, r, i, runtime, d), 0) == before - now
  {
    hide WellFormed, ParseEvents, ParseRuntime, RouteOf, RuntimeOf, Select, FieldEvents, FieldAfter, Current, Held,
         SlotUsages, ArrayEvents;
    var report, field, route := schema.reports[r], FieldAt(schema, r, i), RouteOf(schema, d.source, d.payload);
    ArrayFieldEvents(schema, r, i, RuntimeOf(runtime, field), []);
    DeliveryAtKey(schema, r, i, runtime, d, field.bitOffset);
    if route.Decode? && route.report == r {
      var before := RuntimeOf(runtime, field).active;
      var now := Current(field, route.bytes, field.reportCount);
      ArrayFieldEvents(schema, r, i, RuntimeOf(runtime, field), route.bytes);
      CurrentHoldsSlots(field, route.bytes, field.reportCount);
      ArrayDelta(schema, report, field, before, now);
      TallyStamped(ArrayEvents(schema, report, field, before, now), d.source.handle, 0);
      TallyStamped(ArrayEvents(schema, report, field, before, now), d.source.handle, 1);
    }
  }

  /** Over any run, presses minus releases of an array field is the multiset of the usages that its
      last decoded report asserts; each delivery emits just the difference. */
  lemma {:induction false} ArrayReplay(schema: Schema, r: nat, i: nat, run: seq<Delivery>, n: nat)
    requires WellFormed(schema) && AllLinked(schema) && IsArray(schema, r, i) && n <= |run|
    ensures var field := FieldAt(schema, r, i); var events := ArrayRun(schema, r, i, run, n);
      && Tally(events, 1) == Tally(events, 0) + LastAsserted(schema, r, field, run, n)
      && Held(RuntimeOf(RunRuntime(schema, run, n), field).active) == LastAsserted(schema, r, field, run, n)
    ensures n > 0 ==>
      var field := FieldAt(schema, r, i);
      var before, now := LastAsserted(schema, r, field, run, n - 1), LastAsserted(schema, r, field, run, n);
      var events := ArrayDelivery(schema, r, i, RunRuntime(schema, run, n - 1), run[n - 1]);
      Tally(events, 1) == now - before && Tally(events, 0) == before - now
  {
    hide WellFormed, ParseEvents, ParseRuntime, RouteOf, RuntimeOf, Select, Held, SlotUsages, Tally;
    var field := FieldAt(schema, r, i);
    if n == 0 {
      ArrayReplayStart(field, schema.reports[r].reportId);
    } else {
      var before := RunRuntime(schema, run, n - 1);
      ArrayReplay(schema, r, i, run, n - 1);
      ArrayDeliveryDelta(schema, r, i, before, run[n - 1]);
      var last := ParseEvents(schema, before, run[n - 1].source, run[n - 1].payload);
      SelectConcat(RunEvents(schema, run, n - 1), last, schema.reports[r].reportId, field.bitOffset);
      TallyConcat(ArrayRun(schema, r, i, run, n - 1), ArrayDelivery(schema, r, i, before, run[n - 1]), 0);
      TallyConcat(ArrayRun(schema, r, i, run, n - 1), ArrayDelivery(schema, r, i, before, run[n - 1]), 1);
    }
  }

  lemma ArrayReplayStart(field: Field, reportId: uint8)
    ensures Tally(Select([], reportId, field.bitOffset), 0) == multiset{}
    ensures Tally(Select([], reportId, field.bitOffset), 1) == multiset{}
    ensures Held(RuntimeOf(map[], field).active) == multiset{}
  {
    HeldNothing();
  }

  lemma TallyPrefix(events: seq<Value>, k: nat, value: int)
    requires k <= |events|
    ensures Tally(events[..k], value) <= Tally(events, value)
  {
    hide Tally;
    SplitAt(events, k);
    TallyConcat(events[..k], events[k..], value);
  }

  lemma SplitAt(events: seq<Value>, k: nat)
    requires k <= |events|
    ensures events[..k] + events[k..] == events
  {
  }

  /** At no point of the emitted stream has a usage been released more often than pressed. */
  lemma ReleasesNeverLead(schema: Schema, r: nat, i: nat, run: seq<Delivery>, n: nat, k: nat)
    requires WellFormed(schema) && AllLinked(schema) && IsArray(schema, r, i) && 0 < n <= |run|
    requires k <= |ArrayDelivery(schema, r, i, RunRuntime(schema, run, n - 1), run[n - 1])|
    ensures var prefix := ArrayRun(schema, r, i, run, n - 1)
                          + ArrayDelivery(schema, r, i, RunRuntime(schema, run, n - 1), run[n - 1])[..k];
      Tally(prefix, 0) <= Tally(prefix, 1)
  {
    hide WellFormed, ArrayRun, ArrayDelivery, RunRuntime, LastAsserted, Tally, Select, RuntimeOf, Held, RouteOf,
      AllLinked;
    var past, next := ArrayRun(schema, r, i, run, n - 1),
      ArrayDelivery(schema, r, i, RunRuntime(schema, run, n - 1), run[n - 1]);
    ArrayReplay(schema, r, i, run, n - 1);
    ArrayReplay(schema, r, i, run, n);
    TallyPrefix(next, k, 0);
    TallyConcat(past, next[..k], 0);
    TallyConcat(past, next[..k], 1);
    var held := LastAsserted(schema, r, FieldAt(schema, r, i), run, n - 1);
    PartialReleases(Tally(past, 0), Tally(next[..k], 0), held, LastAsserted(schema, r, FieldAt(schema, r, i), run, n));
  }

  lemma PartialReleases(released: multiset<Usage>, more: multiset<Usage>, held: multiset<Usage>, now: multiset<Usage>)
    requires more <= held - now
    ensures released + more <= released + held
  {
  }
}
