/** The ordered coalescing pipeline of ble_client_hid.cpp: sampling window, barriers, pressure and
    timer flushes, first as functions over a pipeline state and then as the imperative object.

    The clock is an arbitrary sequence of readings: reading number `n` happens at real time
    `clock(n)` microseconds, and the component sees it modulo 2^32. */
module Coalescing {
  import opened Integers
  import opened EventBuffer

  const CAPACITY: nat := 16

  /** Why an event was emitted: as the head of a window, by a flush, in front of a barrier, or
      as a barrier. */
  datatype Cause = Direct | Timer | Pressure | Drained | Barrier

  /** Bounds of the real time at which something happens between two clock readings: the last
      reading in front of it (the start of the clock if there was none) and the first one behind it. */
  datatype Moment = Moment(after: nat, before: nat)

  datatype Emission = Emission(event: HidEvent, moment: Moment, cause: Cause)

  /** `startedAt` is the real time of the reading that `sampling_window_started_us_` holds. */
  datatype Pipe = Pipe(pending: seq<Pending>, active: bool, startedAt: nat, emitted: seq<Emission>, readings: nat)

  const IDLE := Pipe([], false, 0, [], 0)

  function LastRead(p: Pipe, clock: nat -> nat): nat {
    if p.readings == 0 then 0 else clock(p.readings - 1)
  }

  /** The time between the last reading and the next one. */
  function Now(p: Pipe, clock: nat -> nat): Moment {
    Moment(LastRead(p, clock), clock(p.readings))
  }

  function Emissions(events: seq<HidEvent>, moment: Moment, cause: Cause): seq<Emission> {
    seq(|events|, i requires 0 <= i < |events| => Emission(events[i], moment, cause))
  }

  function Emit(p: Pipe, clock: nat -> nat, events: seq<HidEvent>, cause: Cause): Pipe {
    p.(emitted := p.emitted + Emissions(events, Now(p, clock), cause))
  }

  /** `flush_sampled_events_`. */
  function Flush(p: Pipe, clock: nat -> nat, cause: Cause): Pipe {
    Emit(p, clock, PendingEvents(p.pending), cause).(pending := [])
  }

  /** `update_sampling_window_`: readings the clock only while a window is open. */
  function UpdateWindow(p: Pipe, clock: nat -> nat, interval: uint32): Pipe {
    if !p.active || interval == 0 then p
    else
      var now := clock(p.readings);
      var q := p.(readings := p.readings + 1);
      if !Elapsed(Wrapped(now), Wrapped(p.startedAt), interval) then q
      else if p.pending == [] then q.(active := false)
      else Flush(q, clock, Timer).(startedAt := now)
  }

  /** A non-mergeable event empties the buffer, follows what was in it, and closes the window. */
  function PassBarrier(p: Pipe, clock: nat -> nat, e: HidEvent): Pipe {
    Emit(Flush(p, clock, Drained), clock, [e], Barrier).(active := false)
  }

  function Accept(p: Pipe, e: HidEvent): Option<seq<Pending>>
    requires e.item.Some?
  {
    Accumulated(p.pending, CAPACITY, KeyOf(e), e.item.value.aggregation, e.item.value.value, e.item.value.raw, e)
  }

  /** `accumulate_event_`: a full buffer is flushed and the value tried again. */
  function Accumulate(p: Pipe, clock: nat -> nat, e: HidEvent): Pipe
    requires e.item.Some?
  {
    match Accept(p, e)
    case Some(pending) => p.(pending := pending)
    case None =>
      var flushed := Flush(p, clock, Pressure);
      var retried := match Accept(flushed, e) case None => flushed case Some(pending) => flushed.(pending := pending);
      retried.(startedAt := clock(p.readings), readings := p.readings + 1)
  }

  predicate NoBarriers(events: seq<HidEvent>, from: nat, end: nat)
    requires from <= end <= |events|
  {
    forall x {:trigger events[x]} | from <= x < end :: !events[x].IsBarrier()
  }

  function AccumulateAll(p: Pipe, clock: nat -> nat, events: seq<HidEvent>, from: nat, end: nat): Pipe
    requires from <= end <= |events|
    requires NoBarriers(events, from, end)
    decreases end
  {
    if from == end then p else Accumulate(AccumulateAll(p, clock, events, from, end - 1), clock, events[end - 1])
  }

  /** End of the run of mergeable events that starts in front of `i`. */
  function RunEnd(events: seq<HidEvent>, i: nat): nat
    requires i <= |events|
    decreases |events| - i
  {
    if i == |events| || events[i].IsBarrier() then i else RunEnd(events, i + 1)
  }

  lemma {:induction false} RunEndBounds(events: seq<HidEvent>, i: nat)
    requires i <= |events|
    ensures i <= RunEnd(events, i) <= |events| && NoBarriers(events, i, RunEnd(events, i))
    decreases |events| - i
  {
    if i < |events| && !events[i].IsBarrier() {
      RunEndBounds(events, i + 1);
    }
  }

  /** A run of mergeable events opens a window with itself, or accumulates in the open one. */
  function PassRun(p: Pipe, clock: nat -> nat, events: seq<HidEvent>, from: nat, end: nat): Pipe
    requires from <= end <= |events|
    requires NoBarriers(events, from, end)
  {
    if p.active then AccumulateAll(p, clock, events, from, end)
    else Emit(p, clock, events[from..end], Direct).(active := true, startedAt := clock(p.readings),
                                                    readings := p.readings + 1)
  }

  /** The loop of `process_decoded_values_` from index `i` on. */
  function PassFrom(p: Pipe, clock: nat -> nat, interval: uint32, events: seq<HidEvent>, i: nat): Pipe
    requires i <= |events|
    decreases |events| - i
  {
    if i == |events| then p
    else if interval == 0 then PassFrom(Emit(p, clock, [events[i]], Direct), clock, interval, events, i + 1)
    else if events[i].IsBarrier() then PassFrom(PassBarrier(p, clock, events[i]), clock, interval, events, i + 1)
    else
      RunEndBounds(events, i + 1);
      var end := RunEnd(events, i + 1);
      PassFrom(PassRun(p, clock, events, i, end), clock, interval, events, end)
  }

  /** One step of the component: a loop tick, or a dequeued report with the events of its decoded
      values and the raw envelope that stands in when it could not be decoded. */
  datatype Input = Tick | Report(events: seq<HidEvent>, recognized: bool, envelope: HidEvent)

  /** What the component would emit for an input without any coalescing. */
  function PlainOf(input: Input): seq<HidEvent> {
    match input
    case Tick => []
    case Report(events, recognized, envelope) => if events == [] && !recognized then [envelope] else events
  }

  function Process(p: Pipe, clock: nat -> nat, interval: uint32, input: Input): Pipe {
    match input
    case Tick => UpdateWindow(p, clock, interval)
    case Report(events, recognized, envelope) =>
      var q := PassFrom(UpdateWindow(p, clock, interval), clock, interval, events, 0);
      if events == [] && !recognized then PassBarrier(q, clock, envelope) else q
  }

  function Run(clock: nat -> nat, interval: uint32, inputs: seq<Input>, n: nat): Pipe
    requires n <= |inputs|
  {
    if n == 0 then IDLE else Process(Run(clock, interval, inputs, n - 1), clock, interval, inputs[n - 1])
  }

  function Plain(inputs: seq<Input>, n: nat): seq<HidEvent>
    requires n <= |inputs|
  {
    if n == 0 then [] else Plain(inputs, n - 1) + PlainOf(inputs[n - 1])
  }

  // ---------- the object ----------

  class InputPipeline {
    const clock: nat -> nat
    const interval: uint32
    const buffer: OrderedEventBuffer
    var windowActive: bool
    var windowStartedUs: uint32
    var emitted: seq<Emission>
    var readings: nat
    ghost var startedAt: nat

    ghost function Snapshot(): Pipe
      reads this, buffer
    {
      Pipe(buffer.pending, windowActive, startedAt, emitted, readings)
    }

    ghost predicate Valid()
      reads this, buffer
    {
      buffer.capacity == CAPACITY && windowStartedUs == Wrapped(startedAt)
    }

    constructor (clock: nat -> nat, interval: uint32)
      ensures Valid() && Snapshot() == IDLE && this.clock == clock && this.interval == interval && fresh(buffer)
    {
      this.clock := clock;
      this.interval := interval;
      buffer := new OrderedEventBuffer(CAPACITY);
      windowActive, windowStartedUs, emitted, readings, startedAt := false, 0, [], 0, 0;
    }

    /** micros(). */
    method Micros() returns (now: uint32, ghost at: nat)
      modifies this`readings
      ensures at == clock(old(readings)) && now == Wrapped(at) && readings == old(readings) + 1
    {
      now := Wrapped(clock(readings));
      at := clock(readings);
      readings := readings + 1;
    }

    /** `emit_hid_event_` for a list of events. Their moment is part of the record only: emitting
        reads no clock. */
    method EmitAll(events: seq<HidEvent>, cause: Cause)
      modifies this`emitted
      ensures emitted == old(emitted) + Emissions(events, Now(old(Snapshot()), clock), cause)
    {
      var moment := Moment(if readings == 0 then 0 else clock(readings - 1), clock(readings));
      for i := 0 to |events|
        invariant emitted == old(emitted) + Emissions(events[..i], moment, cause)
      {
        emitted := emitted + [Emission(events[i], moment, cause)];
      }
      assert events[..|events|] == events;
    }

    method FlushSampledEvents(cause: Cause)
      requires Valid()
      modifies this`emitted, buffer
      ensures Valid() && Snapshot() == Flush(old(Snapshot()), clock, cause)
    {
      if buffer.pending == [] {
        assert emitted == emitted + Emissions([], Now(Snapshot(), clock), cause);
        return;
      }
      var events := buffer.Drain();
      EmitAll(events, cause);
    }

    method UpdateSamplingWindow()
      requires Valid()
      modifies this, buffer
      ensures Valid() && Snapshot() == UpdateWindow(old(Snapshot()), clock, interval)
    {
      if !windowActive || interval == 0 {
        return;
      }
      var now, at := Micros();
      if !Elapsed(now, windowStartedUs, interval) {
        return;
      }
      if buffer.pending == [] {
        windowActive := false;
        return;
      }
      FlushSampledEvents(Timer);
      windowStartedUs := now;
      startedAt := at;
    }

    method EmitBarrier(barrier: HidEvent)
      requires Valid()
      modifies this, buffer
      ensures Valid() && Snapshot() == PassBarrier(old(Snapshot()), clock, barrier)
    {
      var n := |buffer.pending|;
      var events := buffer.DrainBefore(barrier);
      assert events[..n] == PendingEvents(old(buffer.pending)) && events[n..] == [barrier];
      EmitAll(events[..n], Drained);
      EmitAll(events[n..], Barrier);
      windowActive := false;
    }

    method AccumulateEvent(e: HidEvent)
      requires Valid() && e.item.Some?
      modifies this, buffer
      ensures Valid() && Snapshot() == Accumulate(old(Snapshot()), clock, e)
    {
      hide Accumulated;
      var v := e.item.value;
      var ok := buffer.Accumulate(KeyOf(e), v.aggregation, v.value, v.raw, e);
      if ok {
        return;
      }
      FlushSampledEvents(Pressure);
      ok := buffer.Accumulate(KeyOf(e), v.aggregation, v.value, v.raw, e);
      var now, at := Micros();
      windowStartedUs := now;
      startedAt := at;
    }

    method AccumulateRun(events: seq<HidEvent>, from: nat, end: nat)
      requires Valid() && from <= end <= |events| && NoBarriers(events, from, end)
      modifies this, buffer
      ensures Valid() && Snapshot() == AccumulateAll(old(Snapshot()), clock, events, from, end)
    {
      hide Accumulate;
      for current := from to end
        invariant Valid() && Snapshot() == AccumulateAll(old(Snapshot()), clock, events, from, current)
      {
        AccumulateEvent(events[current]);
      }
    }

    /** `process_decoded_values_`. */
    method ProcessDecodedValues(events: seq<HidEvent>)
      requires Valid()
      modifies this, buffer
      ensures Valid()
      ensures Snapshot() == PassFrom(UpdateWindow(old(Snapshot()), clock, interval), clock, interval, events, 0)
    {
      hide Accumulate, PassBarrier, UpdateWindow, Emissions, HidEvent.IsBarrier, Now, AccumulateAll;
      UpdateSamplingWindow();
      ghost var start := Snapshot();
      var index := 0;
      while index < |events|
        invariant Valid() && index <= |events|
        invariant PassFrom(start, clock, interval, events, 0) == PassFrom(Snapshot(), clock, interval, events, index)
      {
        if interval == 0 {
          EmitAll([events[index]], Direct);
          index := index + 1;
          continue;
        }
        if events[index].IsBarrier() {
          EmitBarrier(events[index]);
          index := index + 1;
          continue;
        }
        var runEnd := index + 1;
        while runEnd < |events| && !events[runEnd].IsBarrier()
          invariant index + 1 <= runEnd <= |events|
          invariant RunEnd(events, runEnd) == RunEnd(events, index + 1)
          invariant NoBarriers(events, index, runEnd)
        {
          runEnd := runEnd + 1;
        }
        if !windowActive {
          EmitAll(events[index..runEnd], Direct);
          windowActive := true;
          var now, at := Micros();
          windowStartedUs := now;
          startedAt := at;
        } else {
          AccumulateRun(events, index, runEnd);
        }
        index := runEnd;
      }
    }

    /** `process_input_report_` behind the decoders: their values and verdict come in as events. */
    method ProcessInputReport(events: seq<HidEvent>, recognized: bool, envelope: HidEvent)
      requires Valid()
      modifies this, buffer
      ensures Valid() && Snapshot() == Process(old(Snapshot()), clock, interval, Report(events, recognized, envelope))
    {
      hide PassFrom, PassBarrier, UpdateWindow;
      ProcessDecodedValues(events);
      if events == [] && !recognized {
        EmitBarrier(envelope);
      }
    }
  }
}
