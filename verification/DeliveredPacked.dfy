/** End to end from values to values: what a peripheral packs into its reports is what the emitted events
    say, through the queue's deliveries, decoding, coalescing and the sampling clock. */
module DeliveredPacked {
  import opened Integers
  import Streams
  import opened HidSchema
  import opened HidDecoder
  import opened HidReplay
  import A = HidArrays
  import opened HidPacked
  import opened EventBuffer
  import C = Coalescing
  import R = CoalescingRefinement
  import opened EndToEnd
  import opened KeyStreams
  import opened KeyTotals
  import opened Delivered

  /** The reports that reach the report map of a service are these filled and refused ones. */
  ghost predicate Sends(maps: Maps, run: seq<Activity>, service: uint16, sent: seq<Sent>)
    requires MapsOk(maps) && service in maps
  {
    AllSent(maps[service], sent) && Deliveries(service, run, |run|) == DeliveriesOf(maps[service], sent)
  }

  lemma {:induction false} DeliveriesGrow(service: uint16, run: seq<Activity>, n: nat, m: nat)
    requires n <= m <= |run|
    ensures Deliveries(service, run, n) <= Deliveries(service, run, m)
    decreases m
  {
    hide IsBoot;
    if n < m {
      DeliveriesGrow(service, run, n, m - 1);
    }
  }

  /** The number of reports that have reached the service behind the first `n` activities. */
  function Reached(service: uint16, run: seq<Activity>, n: nat): (k: nat)
    requires n <= |run|
    ensures k <= |Deliveries(service, run, |run|)|
  {
    DeliveriesGrow(service, run, n, |run|);
    |Deliveries(service, run, n)|
  }

  /** What a scalar has received is what was sent for it within its logical range. */
  lemma ReceivedIsCarried(maps: Maps, run: seq<Activity>, n: nat, service: uint16, sent: seq<Sent>, r: nat, i: nat,
                          k: nat)
    requires MapsOk(maps) && service in maps && Sends(maps, run, service, sent) && n <= |run|
    requires IsControl(maps[service], r, i, k)
    ensures IsInputScalar(maps, service, r, i, k) && Reached(service, run, n) <= |sent|
    ensures Received(maps, run, n, service, r, i, k)
      == Carried(sent, r, i, k, FieldAt(maps[service], r, i).logical, Reached(service, run, n))
  {
    hide WellFormed, Readings, Carried, Deliveries, DeliveriesOf, AllSent, IsControl;
    var schema := maps[service];
    ControlIsScalar(schema, r, i, k);
    var field, before, all := FieldAt(schema, r, i), Deliveries(service, run, n), Deliveries(service, run, |run|);
    DeliveriesGrow(service, run, n, |run|);
    assert all == before + all[|before|..];
    ReadingsInPrefix(schema, r, field, k, before, all[|before|..], |before|);
    ReadingsAreCarried(schema, sent, r, i, k, |before|);
  }

  /** What a scalar amounts to that was sent these values. */
  function AmountSent(field: Field, values: seq<int>): Option<int> {
    if MovesRelatively(field) then Some(Streams.Sum(values))
    else if Streams.Changes(0, values) == [] then None
    else Some(Streams.Last(0, values))
  }

  /** The same behind each activity. */
  ghost function AmountsSent(maps: Maps, run: seq<Activity>, service: uint16, sent: seq<Sent>, r: nat, i: nat, k: nat)
    : (amounts: seq<Option<int>>)
    requires MapsOk(maps) && service in maps && Sends(maps, run, service, sent) && IsControl(maps[service], r, i, k)
    ensures |amounts| == |run| + 1
  {
    var field := FieldAt(maps[service], r, i);
    seq(|run| + 1, n requires 0 <= n < |run| + 1 =>
      AmountSent(field, Carried(sent, r, i, k, field.logical, Reached(service, run, n))))
  }

  lemma AmountsAgree(maps: Maps, run: seq<Activity>, service: uint16, sent: seq<Sent>, r: nat, i: nat, k: nat)
    requires MapsOk(maps) && service in maps && Sends(maps, run, service, sent) && IsControl(maps[service], r, i, k)
    ensures IsInputScalar(maps, service, r, i, k)
    ensures ScalarAmounts(maps, run, service, r, i, k) == AmountsSent(maps, run, service, sent, r, i, k)
  {
    hide MapsOk, Sends, Received, Carried, Reached, IsControl;
    ControlIsScalarOf(maps, service, r, i, k);
    forall n | 0 <= n <= |run|
      ensures ScalarAmounts(maps, run, service, r, i, k)[n] == AmountsSent(maps, run, service, sent, r, i, k)[n]
    {
      ReceivedIsCarried(maps, run, n, service, sent, r, i, k);
    }
  }

  lemma ControlIsScalarOf(maps: Maps, service: uint16, r: nat, i: nat, k: nat)
    requires MapsOk(maps) && service in maps && IsControl(maps[service], r, i, k)
    ensures IsInputScalar(maps, service, r, i, k)
    ensures FieldAt(maps[service], r, i).IsRelative() == MovesRelatively(FieldAt(maps[service], r, i))
  {
    ControlIsScalar(maps[service], r, i, k);
  }

  function ControlKey(service: uint16, report: Report, field: Field, k: nat): Key {
    Key(service, field.bitOffset + k * field.reportSize, report.reportId, INPUT_KIND)
  }

  /** The aggregation of a scalar, from the schema's data. */
  function Coalesced(field: Field, k: nat): Aggregation {
    ControlAggregation(field, ControlUsage(field, k).page)
  }

  lemma CoalescedAs(field: Field, k: nat)
    ensures AggregationOf(field, field.UsageAt(k, true)) == Coalesced(field, k)
  {
    ControlUsageIsUsageAt(field, k);
    ControlAggregationIsAggregation(field, field.UsageAt(k, true));
  }

  /** All values of a run that were sent for a scalar and lie in its logical range. */
  function AllCarried(sent: seq<Sent>, field: Field, r: nat, i: nat, k: nat): seq<int> {
    Carried(sent, r, i, k, field.logical, |sent|)
  }

  lemma AllReceived(maps: Maps, run: seq<Activity>, service: uint16, sent: seq<Sent>, r: nat, i: nat, k: nat)
    requires MapsOk(maps) && service in maps && Sends(maps, run, service, sent) && IsControl(maps[service], r, i, k)
    ensures IsInputScalar(maps, service, r, i, k)
    ensures Received(maps, run, |run|, service, r, i, k) == AllCarried(sent, FieldAt(maps[service], r, i), r, i, k)
  {
    hide MapsOk, IsControl, Received, Carried;
    ReceivedIsCarried(maps, run, |run|, service, sent, r, i, k);
  }

  /** A relative scalar: everything emitted and pending adds up to the values that were sent within the
      logical range, and in front of every barrier to those sent in front of it. */
  lemma MotionDelivered(maps: Maps, run: seq<Activity>, clock: nat -> nat, interval: uint32,
                        service: uint16, sent: seq<Sent>, r: nat, i: nat, k: nat)
    requires MapsOk(maps) && service in maps && Sends(maps, run, service, sent) && IsControl(maps[service], r, i, k)
    requires var field := FieldAt(maps[service], r, i);
      MovesRelatively(field) && NeverSaturates(maps, run, ControlKey(service, maps[service].reports[r], field, k))
    ensures var field := FieldAt(maps[service], r, i);
      var key := ControlKey(service, maps[service].reports[r], field, k);
      var p := C.Run(clock, interval, Inputs(maps, run), |run|);
      && R.Total(R.View(p), key, |R.View(p)|) == Streams.Sum(AllCarried(sent, field, r, i, k))
      && R.TotalMarks(R.EventsOf(p.emitted), key, |p.emitted|)
         == MarksAlong(maps, run, |run|, key, AmountsSent(maps, run, service, sent, r, i, k))
  {
    hide MapsOk, Sends, IsControl, Received, AllCarried, MovesRelatively, R.Total, R.View, R.TotalMarks, C.Run,
      MarksAlong, ScalarAmounts, AmountsSent, NeverSaturates, Streams.Sum, Field.UsageAt, R.EventsOf, C.Plain;
    ControlIsScalarOf(maps, service, r, i, k);
    AllReceived(maps, run, service, sent, r, i, k);
    AmountsAgree(maps, run, service, sent, r, i, k);
    RelativeMotionConserved(maps, run, clock, interval, service, r, i, k);
  }

  /** An absolute scalar that is coalesced: the last value emitted or pending is the last one that was sent
      within the logical range, and in front of every barrier the last one sent in front of it. */
  lemma LatestDelivered(maps: Maps, run: seq<Activity>, clock: nat -> nat, interval: uint32,
                        service: uint16, sent: seq<Sent>, r: nat, i: nat, k: nat)
    requires MapsOk(maps) && service in maps && Sends(maps, run, service, sent) && IsControl(maps[service], r, i, k)
    requires Coalesced(FieldAt(maps[service], r, i), k) == Latest
    ensures var field := FieldAt(maps[service], r, i);
      var key := ControlKey(service, maps[service].reports[r], field, k);
      var p, values := C.Run(clock, interval, Inputs(maps, run), |run|), AllCarried(sent, field, r, i, k);
      && R.Latest(R.View(p), key, |R.View(p)|)
         == (if Streams.Changes(0, values) == [] then None else Some(Streams.Last(0, values)))
      && R.LatestMarks(R.EventsOf(p.emitted), key, |p.emitted|)
         == MarksAlong(maps, run, |run|, key, AmountsSent(maps, run, service, sent, r, i, k))
  {
    hide MapsOk, Sends, IsControl, Received, AllCarried, R.Latest, R.View, R.LatestMarks, C.Run, MarksAlong,
      ScalarAmounts, AmountsSent, Coalesced, AggregationOf, Streams.Changes, Streams.Last, Field.UsageAt,
      R.EventsOf, C.Plain;
    ControlIsScalarOf(maps, service, r, i, k);
    CoalescedAs(FieldAt(maps[service], r, i), k);
    AllReceived(maps, run, service, sent, r, i, k);
    AmountsAgree(maps, run, service, sent, r, i, k);
    LatestValueDelivered(maps, run, clock, interval, service, r, i, k);
  }

  /** Keys, buttons and narrow controls: exactly the changes among the values that were sent within the
      logical range are emitted, at once. */
  lemma ChangesDelivered(maps: Maps, run: seq<Activity>, clock: nat -> nat, interval: uint32,
                         service: uint16, sent: seq<Sent>, r: nat, i: nat, k: nat)
    requires MapsOk(maps) && service in maps && Sends(maps, run, service, sent) && IsControl(maps[service], r, i, k)
    requires Coalesced(FieldAt(maps[service], r, i), k) == Passthrough
    ensures var field := FieldAt(maps[service], r, i);
      var key := ControlKey(service, maps[service].reports[r], field, k);
      var p := C.Run(clock, interval, Inputs(maps, run), |run|);
      ValuesOf(ItemsAt(R.EventsOf(p.emitted), key, |p.emitted|)) == Streams.Changes(0, AllCarried(sent, field, r, i, k))
  {
    hide MapsOk, Sends, IsControl, Received, AllCarried, C.Run, ItemsAt, AggregationOf, Streams.Changes;
    ControlIsScalarOf(maps, service, r, i, k);
    CoalescedAs(FieldAt(maps[service], r, i), k);
    AllReceived(maps, run, service, sent, r, i, k);
    PassthroughExact(maps, run, clock, interval, service, r, i, k);
  }

  /** Arrays: emitted presses minus emitted releases are the usages that the slot values of the last report
      assert. */
  lemma SelectionDelivered(maps: Maps, run: seq<Activity>, clock: nat -> nat, interval: uint32,
                           service: uint16, sent: seq<Sent>, r: nat, i: nat)
    requires MapsOk(maps) && service in maps && Sends(maps, run, service, sent) && IsSelector(maps[service], r, i)
    ensures var schema := maps[service]; var field := FieldAt(schema, r, i);
      var p, key := C.Run(clock, interval, Inputs(maps, run), |run|), ControlKey(service, schema.reports[r], field, 0);
      var items := ItemsAt(R.EventsOf(p.emitted), key, |p.emitted|);
      A.Tally(items, 1) == A.Tally(items, 0) + LastMeant(sent, r, i, field, |sent|)
  {
    hide WellFormed, ItemsAt, C.Run, A.Tally, LastMeant, A.LastAsserted, Deliveries, DeliveriesOf, AllSent;
    LastAssertedIsMeant(maps[service], sent, r, i, |sent|);
    ArrayStateDelivered(maps, run, clock, interval, service, r, i);
  }
}
