/** End to end, key by key: what the peripheral reported is what the emitted events say, through
    decoding, coalescing, barriers, pressure and the sampling clock. */
module Delivered {
  import opened Integers
  import Streams
  import Bits
  import opened HidSchema
  import opened HidDecoder
  import opened HidReplay
  import I = HidIsolation
  import A = HidArrays
  import B = BootDecoder
  import Q = ReportQueue
  import opened EventBuffer
  import C = Coalescing
  import R = CoalescingRefinement
  import opened EndToEnd
  import opened SystemRate
  import opened KeyStreams
  import opened KeyTotals

  // ---------- saturation ----------

  ghost predicate Bounded(items: seq<Value>, bound: nat) {
    forall i | 0 <= i < |items| :: R.Abs(items[i].value) <= bound
  }

  lemma {:induction false} BurdenBounded(events: seq<HidEvent>, key: Key, n: nat, bound: nat)
    requires n <= |events| && Bounded(ItemsAt(events, key, |events|), bound)
    ensures Bounded(ItemsAt(events, key, n), bound) && |ItemsAt(events, key, n)| <= |ItemsAt(events, key, |events|)|
    ensures R.Burden(events, key, n) <= |ItemsAt(events, key, n)| * bound
    decreases n
  {
    hide KeyOf, ItemsAt, Bounded;
    ItemsPrefix(events, key, n, |events|);
    BoundedPrefix(ItemsAt(events, key, n), ItemsAt(events, key, |events|), bound);
    if n > 0 {
      BurdenBounded(events, key, n - 1, bound);
      ItemsStep(events, key, n - 1);
      var before, after := ItemsAt(events, key, n - 1), ItemsAt(events, key, n);
      if !events[n - 1].IsBarrier() && KeyOf(events[n - 1]) == key {
        LastBounded(after, bound);
        assert |after| * bound == |before| * bound + bound;
      } else if |after| > |before| {
        assert |after| * bound == |before| * bound + bound;
      }
    }
  }

  lemma LastBounded(items: seq<Value>, bound: nat)
    requires Bounded(items, bound) && items != []
    ensures R.Abs(items[|items| - 1].value) <= bound
  {
  }

  lemma BoundedPrefix(a: seq<Value>, b: seq<Value>, bound: nat)
    requires a <= b && Bounded(b, bound)
    ensures Bounded(a, bound)
  {
  }

  /** Fewer than 2^31 contributions of 32 bits cannot carry a key past int64. */
  lemma FewAreUnsaturated(events: seq<HidEvent>, key: Key)
    requires Bounded(ItemsAt(events, key, |events|), 0x1_0000_0000) && |ItemsAt(events, key, |events|)| < 0x8000_0000
    ensures R.Unsaturated(R.Project(events, key), key)
  {
    hide ItemsAt, R.Project, R.Burden, Bounded;
    var seen := R.Project(events, key);
    assert events[..|events|] == events;
    ProjectedItems(events, key, |events|);
    forall n | 0 <= n <= |seen|
      ensures R.Burden(seen, key, n) <= INT64_MAX
    {
      BurdenBounded(seen, key, n, 0x1_0000_0000);
    }
  }

  // ---------- the values of a scalar ----------

  ghost predicate AllWithin(values: seq<int>, bound: nat) {
    forall i | 0 <= i < |values| :: R.Abs(values[i]) <= bound
  }

  lemma ReadingBounded(field: Field, index: nat, data: seq<uint8>)
    ensures Reading(field, index, data).Some? ==> R.Abs(Reading(field, index, data).value) <= 0x1_0000_0000
  {
    hide Bits.BitSlice, Bits.FromBits, Bits.Widen, Bits.ToBits;
    var read := Bits.ReadField(data, field.Position(index), field.reportSize, field.IsSigned());
    if read.Some? {
      Bits.ReadValuePacksBack(data, field.Position(index), field.reportSize, field.IsSigned());
      Pow2Values();
      Pow2Monotone(field.reportSize, 32);
      Pow2Monotone(field.reportSize - 1, 32);
    }
  }

  lemma {:induction false} ReadingsBounded(schema: Schema, r: nat, field: Field, index: nat, ds: seq<Delivery>, n: nat)
    requires n <= |ds|
    ensures AllWithin(Readings(schema, r, field, index, ds, n), 0x1_0000_0000)
    ensures |Readings(schema, r, field, index, ds, n)| <= n
  {
    hide RouteOf, Reading;
    if n > 0 {
      ReadingsBounded(schema, r, field, index, ds, n - 1);
      var route := RouteOf(schema, ds[n - 1].source, ds[n - 1].payload);
      if route.Decode? {
        ReadingBounded(field, index, route.bytes);
      }
    }
  }

  lemma {:induction false} ExpectedWithin(field: Field, readings: seq<int>, bound: nat)
    requires AllWithin(readings, bound)
    ensures AllWithin(Expected(field, readings), bound) && |Expected(field, readings)| <= |readings|
  {
    if readings != [] {
      ExpectedWithin(field, readings[..|readings| - 1], bound);
    }
  }

  function ScalarKey(service: uint16, report: Report, field: Field, index: nat): Key {
    Key(service, field.Position(index), report.reportId, INPUT_KIND)
  }

  ghost predicate IsInputScalar(maps: Maps, service: uint16, r: nat, i: nat, index: nat) {
    service in maps && IsScalar(maps[service], r, i, index) && maps[service].reports[r].kind == Input
  }

  /** The in-range values that the reports among the first `n` activities carry for a scalar. */
  function Received(maps: Maps, run: seq<Activity>, n: nat, service: uint16, r: nat, i: nat, index: nat): seq<int>
    requires MapsOk(maps) && IsInputScalar(maps, service, r, i, index) && n <= |run|
  {
    var ds := Deliveries(service, run, n);
    Readings(maps[service], r, FieldAt(maps[service], r, i), index, ds, |ds|)
  }

  lemma {:induction false} ReadingsInPrefix(schema: Schema, r: nat, field: Field, index: nat,
                                            a: seq<Delivery>, b: seq<Delivery>, n: nat)
    requires n <= |a|
    ensures Readings(schema, r, field, index, a + b, n) == Readings(schema, r, field, index, a, n)
  {
    hide ReadingOf;
    if n > 0 {
      ReadingsInPrefix(schema, r, field, index, a, b, n - 1);
    }
  }

  /** One activity brings at most one value for a scalar. */
  lemma ReceivedStep(maps: Maps, run: seq<Activity>, n: nat, service: uint16, r: nat, i: nat, index: nat)
    returns (more: seq<int>)
    requires MapsOk(maps) && IsInputScalar(maps, service, r, i, index) && 0 < n <= |run|
    ensures |more| <= 1
    ensures Received(maps, run, n, service, r, i, index) == Received(maps, run, n - 1, service, r, i, index) + more
  {
    hide ReadingOf, MapsOk, IsBoot;
    var schema, before, ds := maps[service], Deliveries(service, run, n - 1), Deliveries(service, run, n);
    var field := FieldAt(schema, r, i);
    more := [];
    if |ds| > |before| {
      var d := ds[|before|];
      assert ds == before + [d];
      ReadingsInPrefix(schema, r, field, index, before, [d], |before|);
      var reading := ReadingOf(schema, r, field, index, d);
      more := if reading.Some? then [reading.value] else [];
    } else {
      assert ds == before;
    }
    assert Received(maps, run, n - 1, service, r, i, index) + [] == Received(maps, run, n - 1, service, r, i, index);
  }

  /** Without coalescing: a scalar's key carries the scalar's expected values, with one aggregation. */
  lemma PlainScalar(maps: Maps, run: seq<Activity>, n: nat, service: uint16, r: nat, i: nat, index: nat)
    requires MapsOk(maps) && IsInputScalar(maps, service, r, i, index) && n <= |run|
    ensures var schema := maps[service]; var field := FieldAt(schema, r, i);
      var carried := CarriedBy(maps, run, n, ScalarKey(service, schema.reports[r], field, index));
      && ValuesOf(carried) == Expected(field, Received(maps, run, n, service, r, i, index))
      && Uniform(carried, AggregationOf(field, field.UsageAt(index, true)))
  {
    hide WellFormed, AllLinked, RunEvents, Select, ItemsAt, Expected, Readings, AggregationOf;
    var schema := maps[service];
    var field, ds := FieldAt(schema, r, i), Deliveries(service, run, n);
    var key := ScalarKey(service, schema.reports[r], field, index);
    I.PositionsBelowBootIds(schema, r, i, index);
    StreamFollows(maps, run, n, key);
    ScalarReplay(schema, r, i, index, ds, |ds|);
    I.KeyHasOneMeaning(schema, r, i, index, ds, |ds|);
  }

  /** What a scalar has received amounts to: a motion, or a last value once it left the initial zero. */
  function ScalarAmount(field: Field, readings: seq<int>): Option<int> {
    if field.IsRelative() then Some(Streams.Sum(readings))
    else if Streams.Changes(0, readings) == [] then None
    else Some(Streams.Last(0, readings))
  }

  /** The same, behind each activity of a run. */
  function ScalarAmounts(maps: Maps, run: seq<Activity>, service: uint16, r: nat, i: nat, index: nat): seq<Option<int>>
    requires MapsOk(maps) && IsInputScalar(maps, service, r, i, index)
  {
    seq(|run| + 1, n requires 0 <= n < |run| + 1 =>
      ScalarAmount(FieldAt(maps[service], r, i), Received(maps, run, n, service, r, i, index)))
  }

  lemma ExpectedAmount(field: Field, usage: Usage, readings: seq<int>)
    requires AggregationOf(field, usage) != Passthrough
    ensures Amount(Expected(field, readings), AggregationOf(field, usage)) == ScalarAmount(field, readings)
  {
    Streams.NonZeroSum(readings);
    Streams.ChangesReplay(0, readings);
  }

  lemma ExpectedGrows(field: Field, readings: seq<int>, more: seq<int>)
    requires |more| <= 1
    ensures |Expected(field, readings + more)| <= |Expected(field, readings)| + 1
  {
    hide Expected;
    if more == [] {
      assert readings + more == readings;
    } else {
      ExpectedAppend(field, readings, more[0]);
      assert more == [more[0]];
    }
  }

  /** The marks of a scalar's key without coalescing: every barrier stands where the values
      received in front of it put the scalar. */
  lemma ScalarMarks(maps: Maps, run: seq<Activity>, service: uint16, r: nat, i: nat, index: nat)
    requires MapsOk(maps) && IsInputScalar(maps, service, r, i, index)
    requires var f := FieldAt(maps[service], r, i); AggregationOf(f, f.UsageAt(index, true)) != Passthrough
    ensures var schema := maps[service]; var field := FieldAt(schema, r, i);
      var plain, key := C.Plain(Inputs(maps, run), |run|), ScalarKey(service, schema.reports[r], field, index);
      MarksOf(plain, key, AggregationOf(field, field.UsageAt(index, true)), |plain|)
        == MarksAlong(maps, run, |run|, key, ScalarAmounts(maps, run, service, r, i, index))
  {
    hide WellFormed, AllLinked, CarriedBy, Expected, Uniform, Received, ScalarAmount, Amount, AggregationOf, MarksOf,
      MarksAlong;
    var field := FieldAt(maps[service], r, i);
    var key, aggregation := ScalarKey(service, maps[service].reports[r], field, index),
      AggregationOf(field, field.UsageAt(index, true));
    var amounts := ScalarAmounts(maps, run, service, r, i, index);
    forall n | 0 <= n <= |run|
      ensures amounts[n] == Amount(ValuesOf(CarriedBy(maps, run, n, key)), aggregation)
      ensures Uniform(CarriedBy(maps, run, n, key), aggregation)
    {
      PlainScalar(maps, run, n, service, r, i, index);
      ExpectedAmount(field, field.UsageAt(index, true), Received(maps, run, n, service, r, i, index));
    }
    forall n | 0 <= n < |run|
      ensures |CarriedBy(maps, run, n + 1, key)| <= |CarriedBy(maps, run, n, key)| + 1
    {
      PlainScalar(maps, run, n, service, r, i, index);
      PlainScalar(maps, run, n + 1, service, r, i, index);
      var more := ReceivedStep(maps, run, n + 1, service, r, i, index);
      ExpectedGrows(field, Received(maps, run, n, service, r, i, index), more);
    }
    MarksFollow(maps, run, |run|, key, amounts, aggregation);
  }

  /** Nothing that a run brings to a key can carry it past int64 between two barriers. */
  ghost predicate NeverSaturates(maps: Maps, run: seq<Activity>, key: Key)
    requires MapsOk(maps)
  {
    R.Unsaturated(R.Project(C.Plain(Inputs(maps, run), |run|), key), key)
  }

  /** Everything emitted and pending under the key of a relative scalar adds up to the motion that
      the peripheral reported; and whatever was emitted in front of a barrier adds up to the motion
      reported in front of it. */
  lemma RelativeMotionConserved(maps: Maps, run: seq<Activity>, clock: nat -> nat, interval: uint32,
                                service: uint16, r: nat, i: nat, index: nat)
    requires MapsOk(maps) && IsInputScalar(maps, service, r, i, index) && FieldAt(maps[service], r, i).IsRelative()
    requires NeverSaturates(maps, run,
                            ScalarKey(service, maps[service].reports[r], FieldAt(maps[service], r, i), index))
    ensures var schema := maps[service]; var key := ScalarKey(service, schema.reports[r], FieldAt(schema, r, i), index);
      var inputs := Inputs(maps, run); var p, plain := C.Run(clock, interval, inputs, |run|), C.Plain(inputs, |run|);
      && R.Total(R.View(p), key, |R.View(p)|) == Streams.Sum(Received(maps, run, |run|, service, r, i, index))
      && R.TotalMarks(R.EventsOf(p.emitted), key, |p.emitted|) == R.TotalMarks(plain, key, |plain|)
         == MarksAlong(maps, run, |run|, key, ScalarAmounts(maps, run, service, r, i, index))
  {
    hide WellFormed, AllLinked, ItemsAt, Expected, Readings, R.Project, R.Total, R.TotalMarks, R.View, R.Unsaturated,
      R.OnlyKey, C.Run, C.Plain, Uniform, InputAt, Received, ScalarAmounts, MarksAlong;
    var schema := maps[service];
    var field, inputs := FieldAt(schema, r, i), Inputs(maps, run);
    var key, plain := ScalarKey(service, schema.reports[r], field, index), C.Plain(inputs, |run|);
    PlainScalar(maps, run, |run|, service, r, i, index);
    RelativeIsSum(field, index);
    ScalarMarks(maps, run, service, r, i, index);
    ExpectedSum(field, Received(maps, run, |run|, service, r, i, index));
    TotalIsSum(plain, key, Aggregation.Sum, |plain|);
    assert plain[..|plain|] == plain;
    ProjectedItems(plain, key, |plain|);
    R.SumKeysAgreeAtBarriers(clock, interval, inputs, key);
  }

  lemma RelativeIsSum(field: Field, index: nat)
    requires field.IsRelative()
    ensures AggregationOf(field, field.UsageAt(index, true)) == Aggregation.Sum
  {
  }

  lemma ExpectedSum(field: Field, received: seq<int>)
    requires field.IsRelative()
    ensures Streams.Sum(Expected(field, received)) == Streams.Sum(received)
  {
    Streams.NonZeroSum(received);
  }

  /** Scalars have 32 bits, so fewer than 2^31 activities cannot saturate one. */
  lemma ScalarsDoNotSaturate(maps: Maps, run: seq<Activity>, service: uint16, r: nat, i: nat, index: nat)
    requires MapsOk(maps) && IsInputScalar(maps, service, r, i, index) && |run| < 0x8000_0000
    ensures NeverSaturates(maps, run, ScalarKey(service, maps[service].reports[r], FieldAt(maps[service], r, i), index))
  {
    hide WellFormed, AllLinked, ItemsAt, Readings, R.Project, R.Unsaturated, Uniform, C.Plain, InputAt, Expected;
    var schema := maps[service];
    var field, ds := FieldAt(schema, r, i), Deliveries(service, run, |run|);
    var key, plain := ScalarKey(service, schema.reports[r], field, index), C.Plain(Inputs(maps, run), |run|);
    PlainScalar(maps, run, |run|, service, r, i, index);
    ReadingsBounded(schema, r, field, index, ds, |ds|);
    DeliveriesFewer(service, run, |run|);
    ExpectedWithin(field, Received(maps, run, |run|, service, r, i, index), 0x1_0000_0000);
    ItemsBounded(ItemsAt(plain, key, |plain|), 0x1_0000_0000);
    FewAreUnsaturated(plain, key);
  }

  lemma ItemsBounded(items: seq<Value>, bound: nat)
    requires AllWithin(ValuesOf(items), bound)
    ensures Bounded(items, bound)
  {
    forall i | 0 <= i < |items|
      ensures R.Abs(items[i].value) <= bound
    {
      assert ValuesOf(items)[i] == items[i].value;
    }
  }

  lemma {:induction false} DeliveriesFewer(service: uint16, run: seq<Activity>, n: nat)
    requires n <= |run|
    ensures |Deliveries(service, run, n)| <= n
  {
    if n > 0 {
      DeliveriesFewer(service, run, n - 1);
    }
  }

  lemma LatestIsAbsolute(field: Field, usage: Usage)
    ensures AggregationOf(field, usage) == Aggregation.Latest ==> !field.IsRelative()
  {
  }

  /** Under the key of an absolute scalar that is coalesced by its latest value, the last value
      emitted or pending is the last in-range value that the peripheral reported (nothing at all
      while that has always been the initial zero), and in front of every barrier it is the last one
      reported in front of the barrier. */
  lemma LatestValueDelivered(maps: Maps, run: seq<Activity>, clock: nat -> nat, interval: uint32,
                             service: uint16, r: nat, i: nat, index: nat)
    requires MapsOk(maps) && IsInputScalar(maps, service, r, i, index)
    requires var f := FieldAt(maps[service], r, i); AggregationOf(f, f.UsageAt(index, true)) == Aggregation.Latest
    ensures var schema := maps[service]; var key := ScalarKey(service, schema.reports[r], FieldAt(schema, r, i), index);
      var inputs := Inputs(maps, run); var p, plain := C.Run(clock, interval, inputs, |run|), C.Plain(inputs, |run|);
      var received := Received(maps, run, |run|, service, r, i, index);
      && R.Latest(R.View(p), key, |R.View(p)|)
         == (if Streams.Changes(0, received) == [] then None else Some(Streams.Last(0, received)))
      && R.LatestMarks(R.EventsOf(p.emitted), key, |p.emitted|) == R.LatestMarks(plain, key, |plain|)
         == MarksAlong(maps, run, |run|, key, ScalarAmounts(maps, run, service, r, i, index))
  {
    hide WellFormed, AllLinked, ItemsAt, Readings, R.Project, R.Latest, R.LatestMarks, R.View, R.OnlyKey,
      C.Run, C.Plain, Uniform, InputAt, Streams.Changes, Received, ScalarAmounts, MarksAlong, AggregationOf;
    var schema := maps[service];
    var field, inputs := FieldAt(schema, r, i), Inputs(maps, run);
    var key, plain := ScalarKey(service, schema.reports[r], field, index), C.Plain(inputs, |run|);
    var received, items := Received(maps, run, |run|, service, r, i, index), ItemsAt(plain, key, |plain|);
    PlainScalar(maps, run, |run|, service, r, i, index);
    TotalIsSum(plain, key, Aggregation.Latest, |plain|);
    ScalarMarks(maps, run, service, r, i, index);
    LatestIsAbsolute(field, field.UsageAt(index, true));
    Streams.ChangesReplay(0, received);
    assert items != [] ==> items[|items| - 1].value == ValuesOf(items)[|items| - 1];
    assert plain[..|plain|] == plain;
    ProjectedItems(plain, key, |plain|);
    R.LatestKeysAgreeAtBarriers(clock, interval, inputs, key);
  }

  // ---------- barriers ----------

  ghost predicate OnlyBarriers(events: seq<HidEvent>) {
    forall i | 0 <= i < |events| :: events[i].IsBarrier()
  }

  lemma BarrierAlone(o: HidEvent, plain: seq<HidEvent>, from: nat, end: nat)
    requires R.IsGroup(o, plain, from, end) && OnlyBarriers(plain)
    ensures end == from + 1
  {
    var first := plain[from];
  }

  /** Groups that merge nothing are the events themselves. */
  lemma {:induction false} BarriersUncut(shaped: seq<HidEvent>, plain: seq<HidEvent>, cuts: seq<nat>, n: nat)
    requires R.CutsInto(shaped, plain, cuts) && OnlyBarriers(plain) && n <= |shaped|
    ensures cuts[n] == n <= |plain| && shaped[..n] == plain[..n]
  {
    if n > 0 {
      BarriersUncut(shaped, plain, cuts, n - 1);
      assert R.IsGroup(shaped[n - 1], plain, cuts[n - 1], cuts[n]);
      BarrierAlone(shaped[n - 1], plain, cuts[n - 1], cuts[n]);
      R.SingleGroup(plain, n - 1);
    }
  }

  lemma BarriersUnchanged(shaped: seq<HidEvent>, plain: seq<HidEvent>)
    requires R.Coalesced(shaped, plain) && OnlyBarriers(plain)
    ensures shaped == plain
  {
    var cuts: seq<nat> :| R.CutsInto(shaped, plain, cuts);
    BarriersUncut(shaped, plain, cuts, |shaped|);
    assert shaped[..|shaped|] == shaped && plain[..|plain|] == plain;
  }

  lemma PassthroughIsBarrier(seen: seq<HidEvent>, key: Key)
    requires R.OnlyKey(seen, key, Passthrough)
    ensures OnlyBarriers(seen)
  {
  }

  lemma {:induction false} PendingIsMergeable(p: C.Pipe, key: Key, n: nat)
    requires R.PipeOk(p) && n <= |p.pending|
    ensures forall i | 0 <= i < |ItemsAt(PendingEvents(p.pending), key, n)| ::
      ItemsAt(PendingEvents(p.pending), key, n)[i].aggregation != Passthrough
    ensures ItemsAt(PendingEvents(p.pending), key, n) == []
      || ItemsAt(PendingEvents(p.pending), key, n)[0].aggregation != Passthrough
  {
    hide KeyOf;
    if n > 0 {
      PendingIsMergeable(p, key, n - 1);
      assert R.EntryOk(p.pending[n - 1]);
    }
  }

  lemma UniformFirst(items: seq<Value>, aggregation: Aggregation)
    requires Uniform(items, aggregation)
    ensures items == [] || items[0].aggregation == aggregation
  {
  }

  /** Values that are passed through are never pending. */
  lemma NothingPending(p: C.Pipe, key: Key)
    requires R.PipeOk(p) && Uniform(ItemsAt(R.View(p), key, |R.View(p)|), Passthrough)
    ensures ItemsAt(R.View(p), key, |R.View(p)|) == ItemsAt(R.EventsOf(p.emitted), key, |p.emitted|)
  {
    hide ItemsAt, R.PipeOk;
    var emitted, pending := R.EventsOf(p.emitted), PendingEvents(p.pending);
    ItemsConcat(emitted, pending, key, |pending|);
    PendingIsMergeable(p, key, |pending|);
    var rest := ItemsAt(pending, key, |pending|);
    UniformInit(ItemsAt(emitted, key, |emitted|), rest, Passthrough);
    UniformFirst(rest, Passthrough);
  }

  /** A key that is passed through is emitted at once and exactly. */
  lemma PassedThrough(maps: Maps, run: seq<Activity>, clock: nat -> nat, interval: uint32, key: Key)
    requires MapsOk(maps)
    requires var plain := C.Plain(Inputs(maps, run), |run|); Uniform(ItemsAt(plain, key, |plain|), Passthrough)
    ensures var plain, p := C.Plain(Inputs(maps, run), |run|), C.Run(clock, interval, Inputs(maps, run), |run|);
      ItemsAt(R.EventsOf(p.emitted), key, |p.emitted|) == ItemsAt(plain, key, |plain|)
  {
    hide WellFormed, AllLinked, ItemsAt, R.Project, R.View, R.OnlyKey, R.Coalesced, C.Run, C.Plain, Uniform, InputAt,
      R.PipeOk, OnlyBarriers;
    var inputs := Inputs(maps, run);
    var p, plain := C.Run(clock, interval, inputs, |run|), C.Plain(inputs, |run|);
    R.RunIsFaithful(clock, interval, inputs, |run|);
    assert R.StandsFor(p, plain, key);
    assert plain[..|plain|] == plain && R.View(p)[..|R.View(p)|] == R.View(p);
    ProjectedItems(plain, key, |plain|);
    ProjectedItems(R.View(p), key, |R.View(p)|);
    PassthroughIsBarrier(R.Project(plain, key), key);
    BarriersUnchanged(R.Project(R.View(p), key), R.Project(plain, key));
    NothingPending(p, key);
  }

  /** Buttons, keys and narrow controls: exactly the changes that were received. */
  lemma PassthroughExact(maps: Maps, run: seq<Activity>, clock: nat -> nat, interval: uint32,
                         service: uint16, r: nat, i: nat, index: nat)
    requires MapsOk(maps) && IsInputScalar(maps, service, r, i, index)
    requires var f := FieldAt(maps[service], r, i); AggregationOf(f, f.UsageAt(index, true)) == Passthrough
    ensures var schema := maps[service]; var field := FieldAt(schema, r, i);
      var key, p := ScalarKey(service, schema.reports[r], field, index),
        C.Run(clock, interval, Inputs(maps, run), |run|);
      ValuesOf(ItemsAt(R.EventsOf(p.emitted), key, |p.emitted|))
        == Expected(field, Received(maps, run, |run|, service, r, i, index))
  {
    hide WellFormed, AllLinked, ItemsAt, Readings, C.Run, C.Plain, Uniform, InputAt, Expected;
    var schema := maps[service];
    var field := FieldAt(schema, r, i);
    PlainScalar(maps, run, |run|, service, r, i, index);
    PassedThrough(maps, run, clock, interval, ScalarKey(service, schema.reports[r], field, index));
  }

  // ---------- arrays ----------

  lemma UniformConcat(a: seq<Value>, b: seq<Value>, aggregation: Aggregation)
    requires Uniform(a, aggregation) && Uniform(b, aggregation)
    ensures Uniform(a + b, aggregation)
  {
  }

  lemma ArrayDeliveryPasses(schema: Schema, r: nat, i: nat, runtime: Runtime, d: Delivery)
    requires WellFormed(schema) && AllLinked(schema) && A.IsArray(schema, r, i)
    ensures Uniform(A.ArrayDelivery(schema, r, i, runtime, d), Passthrough)
  {
    hide WellFormed, AllLinked, ParseEvents, ParseRuntime, RouteOf, RuntimeOf, Select, FieldEvents, FieldAfter,
      Current, Unmatched;
    var field, route := FieldAt(schema, r, i), RouteOf(schema, d.source, d.payload);
    A.ArrayFieldEvents(schema, r, i, RuntimeOf(runtime, field), []);
    DeliveryAtKey(schema, r, i, runtime, d, field.bitOffset);
    if route.Decode? && route.report == r {
      A.ArrayFieldEvents(schema, r, i, RuntimeOf(runtime, field), route.bytes);
    }
  }

  lemma {:induction false} ArrayPasses(schema: Schema, r: nat, i: nat, run: seq<Delivery>, n: nat)
    requires WellFormed(schema) && AllLinked(schema) && A.IsArray(schema, r, i) && n <= |run|
    ensures Uniform(A.ArrayRun(schema, r, i, run, n), Passthrough)
  {
    hide WellFormed, AllLinked, ParseEvents, ParseRuntime, Select, Uniform;
    if n == 0 {
      NoneUniform(schema.reports[r].reportId, FieldAt(schema, r, i).bitOffset, Passthrough);
    } else {
      ArrayPasses(schema, r, i, run, n - 1);
      var before := RunRuntime(schema, run, n - 1);
      ArrayDeliveryPasses(schema, r, i, before, run[n - 1]);
      SelectConcat(RunEvents(schema, run, n - 1), ParseEvents(schema, before, run[n - 1].source, run[n - 1].payload),
                   schema.reports[r].reportId, FieldAt(schema, r, i).bitOffset);
      UniformConcat(A.ArrayRun(schema, r, i, run, n - 1), A.ArrayDelivery(schema, r, i, before, run[n - 1]),
                    Passthrough);
    }
  }

  lemma NoneUniform(reportId: uint8, fieldId: nat, aggregation: Aggregation)
    ensures Uniform(Select([], reportId, fieldId), aggregation)
  {
  }

  /** Arrays: emitted presses minus emitted releases is what the last report of the run asserts. */
  lemma ArrayStateDelivered(maps: Maps, run: seq<Activity>, clock: nat -> nat, interval: uint32, service: uint16,
                            r: nat, i: nat)
    requires MapsOk(maps) && service in maps && A.IsArray(maps[service], r, i)
    ensures var schema := maps[service]; var field := FieldAt(schema, r, i);
      var p, ds := C.Run(clock, interval, Inputs(maps, run), |run|), Deliveries(service, run, |run|);
      var items := ItemsAt(R.EventsOf(p.emitted),
                           Key(service, field.bitOffset, schema.reports[r].reportId, INPUT_KIND), |p.emitted|);
      A.Tally(items, 1) == A.Tally(items, 0) + A.LastAsserted(schema, r, field, ds, |ds|)
  {
    hide WellFormed, AllLinked, ItemsAt, C.Run, C.Plain, Uniform, InputAt, RunEvents, Select, A.Tally, A.LastAsserted;
    var schema := maps[service];
    var field, ds := FieldAt(schema, r, i), Deliveries(service, run, |run|);
    var key := Key(service, field.bitOffset, schema.reports[r].reportId, INPUT_KIND);
    ArrayBelowBoot(schema, r, i);
    StreamFollows(maps, run, |run|, key);
    ArrayPasses(schema, r, i, ds, |ds|);
    PassedThrough(maps, run, clock, interval, key);
    A.ArrayReplay(schema, r, i, ds, |ds|);
  }

  lemma ArrayBelowBoot(schema: Schema, r: nat, i: nat)
    requires WellFormed(schema) && AllLinked(schema) && A.IsArray(schema, r, i)
    ensures FieldAt(schema, r, i).bitOffset < 0xF000
  {
    FieldAtOk(schema, r, i);
    assert Tiled(schema.fields, schema.reports[r]);
    FieldBeforeEnd(schema.fields, schema.reports[r], i);
    ScalarInsideField(FieldAt(schema, r, i), 0);
  }

  // ---------- boot mouse axes ----------

  /** The signed byte that a boot mouse report carries for an axis. */
  function AxisByte(route: B.BootRoute, fieldId: nat): seq<int>
    requires route.Mouse? ==> |route.bytes| >= 3
  {
    if route.Mouse? then [B.AsInt8(route.bytes[if fieldId == AXIS_X_FIELD then 1 else 2])] else []
  }

  /** The motions of all boot mice of a service that share a report id. */
  function Motions(run: seq<Activity>, n: nat, key: Key): seq<int>
    requires n <= |run|
  {
    if n == 0 then []
    else
      match run[n - 1]
      case Idle => Motions(run, n - 1, key)
      case Dequeued(report) =>
        Motions(run, n - 1, key)
          + (if Addresses(key, report.source)
             then AxisByte(B.BootRouteOf(report.source, Bytes(report.payload)), key.fieldId) else [])
  }

  predicate IsAxisKey(key: Key) {
    key.reportKind == INPUT_KIND && (key.fieldId == AXIS_X_FIELD || key.fieldId == AXIS_Y_FIELD)
  }

  lemma {:induction false} AtFieldConcat(a: seq<Value>, b: seq<Value>, fieldId: nat, n: nat)
    requires n <= |b|
    ensures AtField(a + b, fieldId, |a| + n) == AtField(a, fieldId, |a|) + AtField(b, fieldId, n)
  {
    if n == 0 {
      AtFieldInPrefix(a, b, fieldId, |a|);
      assert AtField(a, fieldId, |a|) + [] == AtField(a, fieldId, |a|);
    } else {
      AtFieldConcat(a, b, fieldId, n - 1);
      assert (a + b)[|a| + n - 1] == b[n - 1];
    }
  }

  lemma {:induction false} AtFieldInPrefix(a: seq<Value>, b: seq<Value>, fieldId: nat, n: nat)
    requires n <= |a|
    ensures AtField(a + b, fieldId, n) == AtField(a, fieldId, n)
  {
    if n > 0 {
      AtFieldInPrefix(a, b, fieldId, n - 1);
    }
  }

  lemma AxisAtField(usage: uint16, axis: nat, motion: int, fieldId: nat)
    ensures var events := B.AxisEvents(usage, axis, motion); var items := AtField(events, fieldId, |events|);
      && ValuesOf(items) == (if fieldId == axis then Streams.NonZero([motion]) else [])
      && Uniform(items, Aggregation.Sum)
  {
    assert [motion][..0] == [];
    assert Streams.NonZero([motion]) == Streams.NonZero([]) + if motion == 0 then [] else [motion];
  }

  lemma MouseAtAxis(before: uint8, bytes: seq<uint8>, fieldId: nat)
    requires |bytes| >= 3 && (fieldId == AXIS_X_FIELD || fieldId == AXIS_Y_FIELD)
    ensures var values := B.MouseEvents(before, bytes); var items := AtField(values, fieldId, |values|);
      && ValuesOf(items) == Streams.NonZero([B.AsInt8(bytes[if fieldId == AXIS_X_FIELD then 1 else 2])])
      && Uniform(items, Aggregation.Sum)
  {
    hide B.ButtonEvents, B.AxisEvents, B.AsInt8, AtField, Streams.NonZero, Uniform;
    var buttons, x, y := B.ButtonEvents(before, bytes[0], 3), B.AsInt8(bytes[1]), B.AsInt8(bytes[2]);
    var xs, ys := B.AxisEvents(0x30, AXIS_X_FIELD, x), B.AxisEvents(0x31, AXIS_Y_FIELD, y);
    NoButtonAtAxis(before, bytes[0], fieldId);
    AtFieldConcat(buttons, xs, fieldId, |xs|);
    AtFieldConcat(buttons + xs, ys, fieldId, |ys|);
    AxisAtField(0x30, AXIS_X_FIELD, x, fieldId);
    AxisAtField(0x31, AXIS_Y_FIELD, y, fieldId);
    OneOfTwo(AtField(xs, fieldId, |xs|), AtField(ys, fieldId, |ys|));
  }

  lemma OneOfTwo(a: seq<Value>, b: seq<Value>)
    ensures ValuesOf(a) == [] ==> ([] + a) + b == b
    ensures ValuesOf(b) == [] ==> ([] + a) + b == a
  {
  }

  lemma NoButtonAtAxis(before: uint8, now: uint8, fieldId: nat)
    requires fieldId == AXIS_X_FIELD || fieldId == AXIS_Y_FIELD
    ensures var buttons := B.ButtonEvents(before, now, 3); AtField(buttons, fieldId, |buttons|) == []
  {
    hide B.ButtonEvents, AtField;
    var buttons := B.ButtonEvents(before, now, 3);
    ButtonsAreBarriers(before, now, 3);
    AtFieldElsewhere(buttons, fieldId, |buttons|);
  }

  lemma KeyboardAtAxis(modifiers: B.Modifiers, keys: set<uint8>, bytes: seq<uint8>, fieldId: nat)
    requires |bytes| >= 8 && (fieldId == AXIS_X_FIELD || fieldId == AXIS_Y_FIELD)
    ensures var values := B.KeyboardEvents(modifiers, keys, bytes); AtField(values, fieldId, |values|) == []
  {
    hide B.ModifierEvents, B.KeyEvents, B.PressedKeys, AtField;
    var values, now := B.KeyboardEvents(modifiers, keys, bytes), B.PressedKeys(bytes, 8);
    ModifiersAreBarriers(modifiers, bytes[0], 8);
    KeysAreBarriers(now, keys, 1, 0x100);
    KeysAreBarriers(keys, now, 0, 0x100);
    AtFieldElsewhere(values, fieldId, |values|);
  }

  lemma BootAtAxis(s: B.State, source: Source, payload: Buffer, fieldId: nat)
    requires fieldId == AXIS_X_FIELD || fieldId == AXIS_Y_FIELD
    ensures var values := B.DecodeEvents(s, source, payload); var items := AtField(values, fieldId, |values|);
      ValuesOf(items) == Streams.NonZero(AxisByte(B.BootRouteOf(source, payload), fieldId))
        && Uniform(items, Aggregation.Sum)
  {
    hide B.MouseEvents, B.KeyboardEvents, B.BootRouteOf, B.AsInt8, AtField, Streams.NonZero;
    NonZeroNothing();
    match B.BootRouteOf(source, payload) {
      case Ignored(_) => AtFieldElsewhere([], fieldId, 0);
      case Mouse(_, bytes) => MouseAtAxis(B.ButtonsOf(s, source.handle), bytes, fieldId);
      case Keyboard(_, bytes) =>
        KeyboardAtAxis(B.ModifiersOf(s, source.handle), B.KeysOf(s, source.handle), bytes, fieldId);
    }
  }

  lemma NonZeroNothing()
    ensures Streams.NonZero([]) == []
  {
  }

  lemma {:induction false} NonZeroConcat(a: seq<int>, b: seq<int>)
    ensures Streams.NonZero(a + b) == Streams.NonZero(a) + Streams.NonZero(b)
  {
    if b == [] {
      assert a + b == a;
    } else {
      assert (a + b)[..|a + b| - 1] == a + b[..|b| - 1];
      NonZeroConcat(a, b[..|b| - 1]);
    }
  }

  lemma ReportAtAxis(maps: Maps, d: Decoders, report: Q.Report, key: Key)
    requires MapsOk(maps) && IsAxisKey(key)
    ensures var plain := C.PlainOf(InputFor(report, DecodeReport(maps, d, report)));
      var items := ItemsAt(plain, key, |plain|);
      && ValuesOf(items)
         == (if Addresses(key, report.source)
             then Streams.NonZero(AxisByte(B.BootRouteOf(report.source, Bytes(report.payload)), key.fieldId)) else [])
      && Uniform(items, Aggregation.Sum)
  {
    hide B.DecodeEvents, B.DecodeState, ParseEvents, ParseRuntime, WellFormed, AllLinked, RouteOf, ItemsAt, AtField,
      Streams.NonZero, Addresses, C.PlainOf, EventsFor;
    var decoded, source := DecodeReport(maps, d, report), report.source;
    var values := decoded.values;
    PlainItems(report, decoded, key);
    ItemsOfReport(report, values, decoded.status, key, |values|);
    NonZeroNothing();
    if IsBoot(source) {
      BootAtAxis(d.boot, source, Bytes(report.payload), key.fieldId);
    } else {
      if source.serviceInstance in maps {
        ParsedApart(maps[source.serviceInstance], RuntimeIn(d, source.serviceInstance), source, Bytes(report.payload));
      }
      AtFieldElsewhere(values, key.fieldId, |values|);
    }
  }

  lemma {:induction false} AxisFollows(maps: Maps, run: seq<Activity>, n: nat, key: Key)
    requires MapsOk(maps) && n <= |run| && IsAxisKey(key)
    ensures var plain := C.Plain(Inputs(maps, run), n); var items := ItemsAt(plain, key, |plain|);
      ValuesOf(items) == Streams.NonZero(Motions(run, n, key)) && Uniform(items, Aggregation.Sum)
  {
    hide DecodeReport, ItemsAt, InputFor, C.PlainOf, WellFormed, AllLinked, Streams.NonZero, AxisByte, Uniform,
      Addresses, IsAxisKey;
    if n == 0 {
      NoAxisItems(key);
    } else {
      var plain, more := C.Plain(Inputs(maps, run), n - 1), C.PlainOf(InputAt(maps, run, n - 1));
      AxisFollows(maps, run, n - 1, key);
      ItemsConcat(plain, more, key, |more|);
      match run[n - 1] {
        case Idle => IdleAddsNothing(plain, more, key);
        case Dequeued(report) =>
          ReportAtAxis(maps, DecodersAfter(maps, run, n - 1), report, key);
          var before, last := ItemsAt(plain, key, |plain|), ItemsAt(more, key, |more|);
          ValuesConcat(before, last);
          UniformConcat(before, last, Aggregation.Sum);
          NonZeroNothing();
          NonZeroConcat(Motions(run, n - 1, key),
            if Addresses(key, report.source)
              then AxisByte(B.BootRouteOf(report.source, Bytes(report.payload)), key.fieldId) else []);
      }
    }
  }

  lemma NoAxisItems(key: Key)
    ensures ItemsAt([], key, 0) == [] && ValuesOf([]) == [] && Streams.NonZero([]) == [] && Uniform([], Aggregation.Sum)
  {
  }

  lemma {:induction false} MotionsBounded(run: seq<Activity>, n: nat, key: Key)
    requires n <= |run|
    ensures AllWithin(Motions(run, n, key), 0x1_0000_0000) && |Motions(run, n, key)| <= n
  {
    hide B.BootRouteOf, Addresses;
    if n > 0 {
      MotionsBounded(run, n - 1, key);
    }
  }

  lemma {:induction false} NonZeroWithin(values: seq<int>, bound: nat)
    requires AllWithin(values, bound)
    ensures AllWithin(Streams.NonZero(values), bound) && |Streams.NonZero(values)| <= |values|
  {
    if values != [] {
      NonZeroWithin(values[..|values| - 1], bound);
    }
  }

  /** The motion of all boot mice of a service that share a report id, behind each activity. */
  function AxisAmounts(run: seq<Activity>, key: Key): seq<Option<int>> {
    seq(|run| + 1, n requires 0 <= n < |run| + 1 => Some(Streams.Sum(Motions(run, n, key))))
  }

  lemma NonZeroGrows(motions: seq<int>, more: seq<int>)
    requires |more| <= 1
    ensures |Streams.NonZero(motions + more)| <= |Streams.NonZero(motions)| + 1
  {
    if more == [] {
      assert motions + more == motions;
    } else {
      assert (motions + more)[..|motions|] == motions;
    }
  }

  lemma MotionsStep(run: seq<Activity>, n: nat, key: Key) returns (more: seq<int>)
    requires 0 < n <= |run|
    ensures |more| <= 1 && Motions(run, n, key) == Motions(run, n - 1, key) + more
  {
    hide B.BootRouteOf, Addresses;
    more := Motions(run, n, key)[|Motions(run, n - 1, key)|..];
  }

  lemma MotionAmount(motions: seq<int>)
    ensures Amount(Streams.NonZero(motions), Aggregation.Sum) == Some(Streams.Sum(motions))
  {
    Streams.NonZeroSum(motions);
  }

  lemma AxisCarried(maps: Maps, run: seq<Activity>, n: nat, key: Key)
    requires MapsOk(maps) && IsAxisKey(key) && n <= |run|
    ensures var carried := CarriedBy(maps, run, n, key);
      ValuesOf(carried) == Streams.NonZero(Motions(run, n, key)) && Uniform(carried, Aggregation.Sum)
  {
    hide MapsOk, Streams.NonZero, Uniform, Motions, IsAxisKey, ItemsAt, C.Plain;
    AxisFollows(maps, run, n, key);
  }

  lemma AxisMarks(maps: Maps, run: seq<Activity>, key: Key)
    requires MapsOk(maps) && IsAxisKey(key)
    ensures var plain := C.Plain(Inputs(maps, run), |run|);
      R.TotalMarks(plain, key, |plain|) == MarksAlong(maps, run, |run|, key, AxisAmounts(run, key))
  {
    hide MapsOk, Streams.NonZero, Uniform, Motions, Amount, MarksAlong, IsAxisKey, CarriedBy, R.TotalMarks, C.Plain;
    var amounts := AxisAmounts(run, key);
    forall n | 0 <= n <= |run|
      ensures amounts[n] == Amount(ValuesOf(CarriedBy(maps, run, n, key)), Aggregation.Sum)
      ensures Uniform(CarriedBy(maps, run, n, key), Aggregation.Sum)
    {
      AxisCarried(maps, run, n, key);
      MotionAmount(Motions(run, n, key));
    }
    forall n | 0 <= n < |run|
      ensures |CarriedBy(maps, run, n + 1, key)| <= |CarriedBy(maps, run, n, key)| + 1
    {
      AxisCarried(maps, run, n, key);
      AxisCarried(maps, run, n + 1, key);
      var more := MotionsStep(run, n + 1, key);
      NonZeroGrows(Motions(run, n, key), more);
    }
    MarksFollow(maps, run, |run|, key, amounts, Aggregation.Sum);
  }

  /** Boot mouse axes: the total under an axis key is the motion that all boot mice of the service
      reported with that report id, at the end and in front of every barrier; the key does not tell
      their handles apart. */
  lemma BootMotionConserved(maps: Maps, run: seq<Activity>, clock: nat -> nat, interval: uint32, key: Key)
    requires MapsOk(maps) && IsAxisKey(key) && NeverSaturates(maps, run, key)
    ensures var inputs := Inputs(maps, run);
      var p, plain := C.Run(clock, interval, inputs, |run|), C.Plain(inputs, |run|);
      && R.Total(R.View(p), key, |R.View(p)|) == Streams.Sum(Motions(run, |run|, key))
      && R.TotalMarks(R.EventsOf(p.emitted), key, |p.emitted|) == R.TotalMarks(plain, key, |plain|)
         == MarksAlong(maps, run, |run|, key, AxisAmounts(run, key))
  {
    hide WellFormed, AllLinked, ItemsAt, R.Project, R.Total, R.TotalMarks, R.View, R.Unsaturated, R.OnlyKey, C.Run,
      C.Plain, Uniform, InputAt, Motions, Streams.NonZero, AxisAmounts, MarksAlong;
    var inputs := Inputs(maps, run);
    AxisMarks(maps, run, key);
    var plain, motions := C.Plain(inputs, |run|), Motions(run, |run|, key);
    AxisFollows(maps, run, |run|, key);
    TotalIsSum(plain, key, Aggregation.Sum, |plain|);
    Streams.NonZeroSum(motions);
    assert plain[..|plain|] == plain;
    ProjectedItems(plain, key, |plain|);
    R.SumKeysAgreeAtBarriers(clock, interval, inputs, key);
  }

  /** Axis bytes are small, so fewer than 2^31 activities cannot saturate an axis. */
  lemma AxesDoNotSaturate(maps: Maps, run: seq<Activity>, key: Key)
    requires MapsOk(maps) && IsAxisKey(key) && |run| < 0x8000_0000
    ensures NeverSaturates(maps, run, key)
  {
    hide WellFormed, AllLinked, ItemsAt, R.Project, R.Unsaturated, C.Plain, Uniform, InputAt, Motions, Streams.NonZero;
    var plain, motions := C.Plain(Inputs(maps, run), |run|), Motions(run, |run|, key);
    AxisFollows(maps, run, |run|, key);
    MotionsBounded(run, |run|, key);
    NonZeroWithin(motions, 0x1_0000_0000);
    ItemsBounded(ItemsAt(plain, key, |plain|), 0x1_0000_0000);
    FewAreUnsaturated(plain, key);
  }
}
