/** The rate bound of the sampling window in real time, across every wrap of the 32-bit
    microsecond clock. */
module CoalescingRate {
  import opened Integers
  import opened EventBuffer
  import opened Coalescing
  import opened CoalescingRefinement

  /** Emissions that do not wait for the window: barriers, what they drain, and pressure flushes. */
  predicate Forced(e: Emission) {
    e.cause == Barrier || e.cause == Drained || e.cause == Pressure
  }

  ghost predicate SameKey(a: HidEvent, b: HidEvent) {
    !a.IsBarrier() && !b.IsBarrier() && KeyOf(a) == KeyOf(b)
  }

  /** Nothing was forced out behind emission `i`, up to and including emission `j`. */
  ghost predicate Unforced(emitted: seq<Emission>, i: nat, j: nat)
    requires j < |emitted|
  {
    forall m | i < m <= j :: !Forced(emitted[m])
  }

  /** The real time from which the window behind an emission counts: the first reading behind it. The
      window behind a timer flush counts from the reading that found it due, the last one in front. */
  function SettledAt(e: Emission): nat {
    if e.cause == Timer then e.moment.after else e.moment.before
  }

  /** Emissions of one key with nothing forced in between are an interval apart: the later one happens
      after a reading that is an interval behind the settling of the earlier one. */
  ghost predicate Rated(emitted: seq<Emission>, interval: uint32) {
    forall i, j | 0 <= i < j < |emitted| && SameKey(emitted[i].event, emitted[j].event) && Unforced(emitted, i, j) ::
      emitted[j].moment.after - SettledAt(emitted[i]) >= interval
  }

  ghost predicate Monotone(clock: nat -> nat) {
    forall a: nat, b: nat | a <= b :: clock(a) <= clock(b)
  }

  ghost predicate SettledBy(emitted: seq<Emission>, time: nat) {
    forall i | 0 <= i < |emitted| :: SettledAt(emitted[i]) <= time
  }

  /** Every emission that nothing was forced out behind is at least an interval before `time`. */
  ghost predicate RestedBy(emitted: seq<Emission>, interval: uint32, time: nat) {
    forall i | 0 <= i < |emitted| && !emitted[i].event.IsBarrier() && Unforced(emitted, i, |emitted| - 1) ::
      SettledAt(emitted[i]) + interval <= time
  }

  /** All emissions have settled in front of an open window, and in front of the next reading; in front
      of a closed window they have rested. */
  ghost predicate Paced(p: Pipe, clock: nat -> nat, interval: uint32) {
    && PipeOk(p)
    && Rated(p.emitted, interval)
    && SettledBy(p.emitted, clock(p.readings))
    && (p.active ==> p.startedAt <= LastRead(p, clock) && SettledBy(p.emitted, p.startedAt))
    && (!p.active ==> RestedBy(p.emitted, interval, LastRead(p, clock)))
  }

  /** Mergeable events of one report have different keys. */
  ghost predicate DistinctKeys(events: seq<HidEvent>) {
    forall i, j | 0 <= i < j < |events| :: !SameKey(events[i], events[j])
  }

  ghost predicate InputOk(input: Input) {
    input.Report? ==> DistinctKeys(input.events) && input.envelope.IsBarrier()
  }

  /** New emissions keep the bound when each of them is forced, or all of them carry different keys
      and come an interval behind what could still constrain them. */
  lemma AppendRated(emitted: seq<Emission>, events: seq<HidEvent>, moment: Moment, cause: Cause, interval: uint32)
    requires Rated(emitted, interval)
    requires var forced := cause == Barrier || cause == Drained || cause == Pressure;
      forced || (DistinctKeys(events) && RestedBy(emitted, interval, moment.after))
    ensures Rated(emitted + Emissions(events, moment, cause), interval)
  {
    hide HidEvent.IsBarrier, KeyOf, SettledAt;
    var n, all := |emitted|, emitted + Emissions(events, moment, cause);
    forall i, j | 0 <= i < j < |all| && SameKey(all[i].event, all[j].event) && Unforced(all, i, j)
      ensures all[j].moment.after - SettledAt(all[i]) >= interval
    {
      if j < n {
        assert Unforced(emitted, i, j) by {
          forall m | i < m <= j
            ensures !Forced(emitted[m])
          {
            assert all[m] == emitted[m];
          }
        }
      } else {
        assert all[j] == Emission(events[j - n], moment, cause);
        assert !Forced(all[j]);
        if i < n {
          assert Unforced(emitted, i, n - 1) by {
            forall m | i < m <= n - 1
              ensures !Forced(emitted[m])
            {
              assert all[m] == emitted[m];
            }
          }
        }
      }
    }
  }

  lemma AppendSettled(emitted: seq<Emission>, events: seq<HidEvent>, moment: Moment, cause: Cause, time: nat)
    requires SettledBy(emitted, time) && (if cause == Timer then moment.after else moment.before) <= time
    ensures SettledBy(emitted + Emissions(events, moment, cause), time)
  {
  }

  lemma SettledLater(emitted: seq<Emission>, time: nat, later: nat)
    requires SettledBy(emitted, time) && time <= later
    ensures SettledBy(emitted, later)
  {
    hide SettledAt;
  }

  lemma PendingKeysDistinct(p: Pipe)
    requires PipeOk(p)
    ensures DistinctKeys(PendingEvents(p.pending))
  {
    var events := PendingEvents(p.pending);
    forall i, j | 0 <= i < j < |events|
      ensures !SameKey(events[i], events[j])
    {
      assert EntryOk(p.pending[i]) && EntryOk(p.pending[j]);
    }
  }

  lemma NextReading(p: Pipe, clock: nat -> nat)
    requires Monotone(clock)
    ensures LastRead(p, clock) <= clock(p.readings) <= clock(p.readings + 1)
  {
  }

  /** The timer: what it closes has rested, what it flushes comes an interval after everything. */
  lemma UpdatePaced(p: Pipe, clock: nat -> nat, interval: uint32)
    requires Monotone(clock) && Paced(p, clock, interval)
    ensures Paced(UpdateWindow(p, clock, interval), clock, interval)
  {
    hide Elapsed, Rated, PipeOk, SettledAt;
    NextReading(p, clock);
    if p.active && interval != 0 {
      var now := clock(p.readings);
      ElapsedIsRealTime(p.startedAt, now, interval);
      var q := UpdateWindow(p, clock, interval);
      UpdatePipe(p, clock, interval);
      SettledLater(p.emitted, now, clock(p.readings + 1));
      if Elapsed(Wrapped(now), Wrapped(p.startedAt), interval) {
        assert RestedBy(p.emitted, interval, now);
        if p.pending != [] {
          FlushPaced(p, clock, interval, now);
        }
      }
    }
  }

  lemma FlushPaced(p: Pipe, clock: nat -> nat, interval: uint32, now: nat)
    requires PipeOk(p) && Rated(p.emitted, interval) && RestedBy(p.emitted, interval, now)
    requires SettledBy(p.emitted, now) && now == clock(p.readings)
    ensures var emitted := Flush(p.(readings := p.readings + 1), clock, Timer).emitted;
      Rated(emitted, interval) && SettledBy(emitted, now)
  {
    hide Rated, PipeOk, SettledBy, RestedBy;
    var moment := Moment(now, clock(p.readings + 1));
    PendingKeysDistinct(p);
    AppendRated(p.emitted, PendingEvents(p.pending), moment, Timer, interval);
    AppendSettled(p.emitted, PendingEvents(p.pending), moment, Timer, now);
  }

  lemma UpdatePipe(p: Pipe, clock: nat -> nat, interval: uint32)
    requires PipeOk(p)
    ensures PipeOk(UpdateWindow(p, clock, interval))
  {
    hide Elapsed;
  }

  lemma BarrierPaced(p: Pipe, clock: nat -> nat, interval: uint32, e: HidEvent)
    requires Paced(p, clock, interval) && e.IsBarrier()
    ensures Paced(PassBarrier(p, clock, e), clock, interval)
  {
    hide Rated, PipeOk, HidEvent.IsBarrier, SettledBy;
    var moment := Now(p, clock);
    var drained := p.emitted + Emissions(PendingEvents(p.pending), moment, Drained);
    var q := PassBarrier(p, clock, e);
    assert q.emitted == drained + Emissions([e], moment, Barrier);
    BarrierPipe(p, clock, e);
    AppendRated(p.emitted, PendingEvents(p.pending), moment, Drained, interval);
    AppendRated(drained, [e], moment, Barrier, interval);
    AppendSettled(p.emitted, PendingEvents(p.pending), moment, Drained, moment.before);
    AppendSettled(drained, [e], moment, Barrier, moment.before);
    assert Forced(q.emitted[|q.emitted| - 1]);
  }

  lemma AccumulatePaced(p: Pipe, clock: nat -> nat, interval: uint32, e: HidEvent)
    requires Monotone(clock) && Paced(p, clock, interval) && p.active && !e.IsBarrier()
    ensures Paced(Accumulate(p, clock, e), clock, interval) && Accumulate(p, clock, e).active
  {
    hide Rated, Accept, BufferOk, HidEvent.IsBarrier, SettledBy;
    NextReading(p, clock);
    MergeableHasItem(e);
    if Accept(p, e).Some? {
      AcceptedKeeps(p, e);
    } else {
      var flushed, moment := Flush(p, clock, Pressure), Now(p, clock);
      EmptyBufferOk();
      EmptyAccepts(flushed, e);
      AcceptedKeeps(flushed, e);
      AppendRated(p.emitted, PendingEvents(p.pending), moment, Pressure, interval);
      AppendSettled(p.emitted, PendingEvents(p.pending), moment, Pressure, moment.before);
      SettledLater(flushed.emitted, moment.before, clock(p.readings + 1));
    }
  }

  lemma MergeableHasItem(e: HidEvent)
    requires !e.IsBarrier()
    ensures e.item.Some?
  {
  }

  lemma {:induction false} AccumulateAllPaced(p: Pipe, clock: nat -> nat, interval: uint32, events: seq<HidEvent>,
                                              from: nat, end: nat)
    requires Monotone(clock) && Paced(p, clock, interval) && p.active
    requires from <= end <= |events| && NoBarriers(events, from, end)
    ensures Paced(AccumulateAll(p, clock, events, from, end), clock, interval)
    ensures AccumulateAll(p, clock, events, from, end).active
    decreases end
  {
    hide Paced, Accumulate, Monotone;
    if from < end {
      AccumulateAllPaced(p, clock, interval, events, from, end - 1);
      AccumulatePaced(AccumulateAll(p, clock, events, from, end - 1), clock, interval, events[end - 1]);
    }
  }

  /** The head of a window: it comes behind a reading at which everything has rested, and the window
      starts with the reading behind it. */
  lemma DirectPaced(p: Pipe, clock: nat -> nat, interval: uint32, events: seq<HidEvent>)
    requires Monotone(clock) && Paced(p, clock, interval) && !p.active && DistinctKeys(events)
    ensures var q := Emit(p, clock, events, Direct);
      PipeOk(q) && Rated(q.emitted, interval) && SettledBy(q.emitted, clock(p.readings))
  {
    hide Rated, RestedBy, DistinctKeys, SettledBy;
    AppendRated(p.emitted, events, Now(p, clock), Direct, interval);
    AppendSettled(p.emitted, events, Now(p, clock), Direct, clock(p.readings));
  }

  lemma RunPaced(p: Pipe, clock: nat -> nat, interval: uint32, events: seq<HidEvent>, from: nat, end: nat)
    requires Monotone(clock) && Paced(p, clock, interval)
    requires from <= end <= |events| && NoBarriers(events, from, end) && DistinctKeys(events)
    ensures Paced(PassRun(p, clock, events, from, end), clock, interval)
  {
    if p.active {
      AccumulateAllPaced(p, clock, interval, events, from, end);
    } else {
      hide Rated, RestedBy, SettledBy;
      NextReading(p, clock);
      SliceDistinct(events, from, end);
      DirectPaced(p, clock, interval, events[from..end]);
      SettledLater(Emit(p, clock, events[from..end], Direct).emitted, clock(p.readings), clock(p.readings + 1));
    }
  }

  lemma SliceDistinct(events: seq<HidEvent>, from: nat, end: nat)
    requires from <= end <= |events| && DistinctKeys(events)
    ensures DistinctKeys(events[from..end])
  {
    hide SameKey;
  }

  lemma {:induction false} PassPaced(p: Pipe, clock: nat -> nat, interval: uint32, events: seq<HidEvent>, i: nat)
    requires Monotone(clock) && Paced(p, clock, interval) && i <= |events| && DistinctKeys(events) && interval > 0
    ensures Paced(PassFrom(p, clock, interval, events, i), clock, interval)
    decreases |events| - i
  {
    hide Paced, PassBarrier, PassRun, Emit, DistinctKeys, Monotone;
    if i < |events| {
      if events[i].IsBarrier() {
        BarrierPaced(p, clock, interval, events[i]);
        PassPaced(PassBarrier(p, clock, events[i]), clock, interval, events, i + 1);
      } else {
        var end := RunEnd(events, i + 1);
        RunEndBounds(events, i + 1);
        RunPaced(p, clock, interval, events, i, end);
        PassPaced(PassRun(p, clock, events, i, end), clock, interval, events, end);
      }
    }
  }

  lemma ProcessPaced(p: Pipe, clock: nat -> nat, interval: uint32, input: Input)
    requires Monotone(clock) && Paced(p, clock, interval) && InputOk(input) && interval > 0
    ensures Paced(Process(p, clock, interval, input), clock, interval)
  {
    hide Paced, PassFrom, PassBarrier, UpdateWindow, Monotone;
    UpdatePaced(p, clock, interval);
    if input.Report? {
      var q := PassFrom(UpdateWindow(p, clock, interval), clock, interval, input.events, 0);
      PassPaced(UpdateWindow(p, clock, interval), clock, interval, input.events, 0);
      if input.events == [] && !input.recognized {
        BarrierPaced(q, clock, interval, input.envelope);
      }
    }
  }

  /** Rate bound: over any run with a sampling interval, of two emissions of one key with no barrier and
      no pressure flush between them the later one is at least the interval of real time behind the
      earlier one, where a timer flush counts as happening at the reading that found it due. */
  lemma {:induction false} RunIsRated(clock: nat -> nat, interval: uint32, inputs: seq<Input>, n: nat)
    requires Monotone(clock) && n <= |inputs| && interval > 0
    requires forall i | 0 <= i < |inputs| :: InputOk(inputs[i])
    ensures Paced(Run(clock, interval, inputs, n), clock, interval)
    ensures Rated(Run(clock, interval, inputs, n).emitted, interval)
  {
    hide Process, InputOk, Monotone;
    if n > 0 {
      RunIsRated(clock, interval, inputs, n - 1);
      ProcessPaced(Run(clock, interval, inputs, n - 1), clock, interval, inputs[n - 1]);
    }
  }
}
