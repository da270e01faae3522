/** Events as Home Assistant receives them and the insertion-ordered coalescing buffer
    (ordered_event_buffer.h). */
module EventBuffer {
  import opened Integers
  import opened HidDecoder

  /** One emitted event. `item` is absent in the raw envelope of an undecodable report. */
  datatype HidEvent = HidEvent(
    source: Source, payload: seq<uint8>, status: Status, item: Option<Value>, seqFrom: nat, seqTo: nat)
  {
    /** Buttons, keys, arrays and raw envelopes are never merged. */
    predicate IsBarrier() { item.None? || item.value.aggregation == Passthrough }

    function Amount(): int { if item.None? then 0 else item.value.value }

    function RawAmount(): int { if item.None? then 0 else item.value.raw }

    function WithAmounts(value: int, raw: int): HidEvent {
      if item.None? then this else this.(item := Some(item.value.(value := value, raw := raw)))
    }
  }

  /** SampledEventKey: the aggregation identity. */
  datatype Key = Key(serviceInstance: uint16, fieldId: nat, reportId: uint8, reportKind: uint8)

  const INPUT_KIND: uint8 := 1

  /** The key that `accumulate_event_` forms for a value. */
  function KeyOf(e: HidEvent): Key
    requires e.item.Some?
  {
    Key(e.source.serviceInstance, e.item.value.fieldId,
        if e.source.hasReportId then e.source.reportId else 0, INPUT_KIND)
  }

  datatype Pending = Pending(key: Key, aggregation: Aggregation, value: int, raw: int, event: HidEvent)

  /** `saturating_add_` on int64. */
  function SaturatingAdd(left: int, right: int): int {
    if right > 0 && left > INT64_MAX - right then INT64_MAX
    else if right < 0 && left < INT64_MIN - right then INT64_MIN
    else left + right
  }

  /** The sum never leaves int64, and it is exact unless the true sum does. */
  lemma SaturatingAddExact(left: int64, right: int64)
    ensures INT64_MIN <= SaturatingAdd(left, right) <= INT64_MAX
    ensures SaturatingAdd(left, right) == left + right <==> INT64_MIN <= left + right <= INT64_MAX
  {
  }

  /** Index of the entry with the key, or |pending|. */
  function FindKey(pending: seq<Pending>, key: Key, start: nat := 0): (i: nat)
    requires start <= |pending|
    ensures start <= i <= |pending|
    ensures i < |pending| ==> pending[i].key == key
    ensures forall j | start <= j < i :: pending[j].key != key
    decreases |pending| - start
  {
    if start == |pending| || pending[start].key == key then start else FindKey(pending, key, start + 1)
  }

  /** The newest event with the amounts and the start of the span carried over. */
  function MergeEntry(old_: Pending, aggregation: Aggregation, value: int, raw: int, event: HidEvent): Pending {
    var v := if aggregation == Sum then SaturatingAdd(old_.value, value) else value;
    var r := if aggregation == Sum then SaturatingAdd(old_.raw, raw) else raw;
    old_.(value := v, raw := r, event := event.WithAmounts(v, r).(seqFrom := old_.event.seqFrom))
  }

  /** The buffer after an accepted value; None when a new key finds the buffer full. */
  function Accumulated(pending: seq<Pending>, capacity: nat, key: Key, aggregation: Aggregation,
                       value: int, raw: int, event: HidEvent): Option<seq<Pending>>
  {
    var i := FindKey(pending, key);
    if i < |pending| then Some(pending[i := MergeEntry(pending[i], aggregation, value, raw, event)])
    else if |pending| >= capacity then None
    else Some(pending + [Pending(key, aggregation, value, raw, event.WithAmounts(value, raw))])
  }

  function PendingEvents(pending: seq<Pending>): (events: seq<HidEvent>)
    ensures |events| == |pending|
  {
    seq(|pending|, i requires 0 <= i < |pending| => pending[i].event)
  }

  class OrderedEventBuffer {
    const capacity: nat
    var pending: seq<Pending>

    constructor (capacity: nat)
      ensures this.capacity == capacity && pending == []
    {
      this.capacity := capacity;
      pending := [];
    }

    method Accumulate(key: Key, aggregation: Aggregation, value: int, raw: int, event: HidEvent) returns (ok: bool)
      modifies this
      ensures var result := Accumulated(old(pending), capacity, key, aggregation, value, raw, event);
        ok == result.Some? && pending == (if ok then result.value else old(pending))
    {
      for i := 0 to |pending|
        invariant pending == old(pending)
        invariant FindKey(pending, key) == FindKey(pending, key, i)
      {
        if pending[i].key != key {
          continue;
        }
        var entry := pending[i];
        if aggregation == Sum {
          entry := entry.(value := SaturatingAdd(entry.value, value), raw := SaturatingAdd(entry.raw, raw));
        } else {
          entry := entry.(value := value, raw := raw);
        }
        var seqFrom := entry.event.seqFrom;
        entry := entry.(event := event.WithAmounts(entry.value, entry.raw).(seqFrom := seqFrom));
        pending := pending[i := entry];
        return true;
      }
      if |pending| >= capacity {
        return false;
      }
      pending := pending + [Pending(key, aggregation, value, raw, event.WithAmounts(value, raw))];
      ok := true;
    }

    method Drain() returns (events: seq<HidEvent>)
      modifies this
      ensures events == PendingEvents(old(pending)) && pending == []
    {
      events := [];
      for i := 0 to |pending|
        invariant pending == old(pending)
        invariant events == PendingEvents(pending[..i])
      {
        events := events + [pending[i].event];
      }
      assert pending[..|pending|] == pending;
      pending := [];
    }

    method DrainBefore(barrier: HidEvent) returns (events: seq<HidEvent>)
      modifies this
      ensures events == PendingEvents(old(pending)) + [barrier] && pending == []
    {
      events := Drain();
      events := events + [barrier];
    }

    method Clear()
      modifies this
      ensures pending == []
    {
      pending := [];
    }
  }
}
