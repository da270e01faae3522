/** The other side of the rate bound: how long a value can be pending. With the main loop coming
    round within a gap, nothing waits longer than the sampling interval and the gap. */
module CoalescingLatency {
  import opened Integers
  import opened EventBuffer
  import opened Coalescing
  import opened CoalescingRefinement
  import opened CoalescingRate

  // ---------- how pending entries leave ----------

  /** The event carries the entry on: same key, same first contribution. */
  predicate Carries(e: HidEvent, entry: Pending) {
    !e.IsBarrier() && KeyOf(e) == entry.key && e.seqFrom == entry.event.seqFrom
  }

  /** All entries are still there, in their places; they may have merged more, and more may follow. */
  ghost predicate Grown(a: seq<Pending>, b: seq<Pending>) {
    |a| <= |b| && forall i | 0 <= i < |a| :: b[i].key == a[i].key && b[i].event.seqFrom == a[i].event.seqFrom
  }

  /** Nothing has been emitted since, in the same window. */
  ghost predicate Kept(p: Pipe, q: Pipe) {
    p.active && q.active && q.startedAt == p.startedAt && q.emitted == p.emitted && Grown(p.pending, q.pending)
  }

  /** The pending entries of `p` are the next emissions, in order, behind a reading no later than `time`. */
  ghost predicate LeftBy(p: Pipe, q: Pipe, time: nat) {
    && p.emitted <= q.emitted && |q.emitted| >= |p.emitted| + |p.pending|
    && forall i | 0 <= i < |p.pending| ::
         Carries(q.emitted[|p.emitted| + i].event, p.pending[i]) && q.emitted[|p.emitted| + i].moment.after <= time
  }

  ghost predicate Follows(p: Pipe, q: Pipe, slack: nat) {
    p.emitted <= q.emitted && (Kept(p, q) || LeftBy(p, q, p.startedAt + slack))
  }

  lemma FollowsSelf(p: Pipe, slack: nat)
    requires PipeOk(p)
    ensures Follows(p, p, slack)
  {
  }

  lemma Chain(p: Pipe, q: Pipe, r: Pipe, slack: nat)
    requires Follows(p, q, slack) && Follows(q, r, slack)
    ensures Follows(p, r, slack)
  {
    hide Carries;
    if !Kept(p, q) {
      LeavesOnce(p, q, r, p.startedAt + slack);
    } else if !Kept(q, r) {
      forall i | 0 <= i < |p.pending|
        ensures Carries(r.emitted[|p.emitted| + i].event, p.pending[i])
        ensures r.emitted[|p.emitted| + i].moment.after <= p.startedAt + slack
      {
        assert Carries(r.emitted[|q.emitted| + i].event, q.pending[i]);
        SameEntry(r.emitted[|q.emitted| + i].event, q.pending[i], p.pending[i]);
      }
    }
  }

  lemma SameEntry(e: HidEvent, entry: Pending, other: Pending)
    requires Carries(e, entry) && other.key == entry.key && other.event.seqFrom == entry.event.seqFrom
    ensures Carries(e, other)
  {
  }

  lemma NothingLeaves(p: Pipe, q: Pipe, time: nat)
    requires p.pending == [] && p.emitted <= q.emitted
    ensures LeftBy(p, q, time)
  {
  }

  lemma LeavesOnce(p: Pipe, q: Pipe, r: Pipe, time: nat)
    requires LeftBy(p, q, time) && q.emitted <= r.emitted
    ensures LeftBy(p, r, time)
  {
    hide Carries;
    forall i | 0 <= i < |p.pending|
      ensures Carries(r.emitted[|p.emitted| + i].event, p.pending[i]) && r.emitted[|p.emitted| + i].moment.after <= time
    {
      assert r.emitted[|p.emitted| + i] == q.emitted[|p.emitted| + i];
    }
  }

  // ---------- one step ----------

  /** The last reading lies in the open window. */
  ghost predicate Timely(p: Pipe, clock: nat -> nat, interval: uint32) {
    PipeOk(p) && (p.active ==> p.startedAt <= LastRead(p, clock) < p.startedAt + interval)
  }

  /** With an open window, the clock is read again within the gap. */
  ghost predicate InTime(p: Pipe, clock: nat -> nat, gap: nat) {
    p.active ==> clock(p.readings) <= LastRead(p, clock) + gap
  }

  lemma FlushLeaves(p: Pipe, clock: nat -> nat, cause: Cause, more: seq<Emission>, q: Pipe, time: nat)
    requires PipeOk(p) && LastRead(p, clock) <= time
    requires q.emitted == Flush(p, clock, cause).emitted + more
    ensures LeftBy(p, q, time)
  {
    forall i | 0 <= i < |p.pending|
      ensures Carries(q.emitted[|p.emitted| + i].event, p.pending[i])
      ensures q.emitted[|p.emitted| + i].moment.after <= time
    {
      assert EntryOk(p.pending[i]);
      assert q.emitted[|p.emitted| + i] == Emission(p.pending[i].event, Now(p, clock), cause);
    }
  }

  /** The timer finds a window due exactly from its interval on, less than a wrap behind its start, and
      leaves nothing pending in a due window. */
  lemma DueTickFlushes(p: Pipe, clock: nat -> nat, interval: uint32)
    requires p.active && interval > 0 && p.startedAt <= clock(p.readings) < p.startedAt + 0x1_0000_0000
    ensures var q := UpdateWindow(p, clock, interval);
      if clock(p.readings) >= p.startedAt + interval then q.pending == []
      else q == p.(readings := p.readings + 1)
  {
    hide Elapsed;
    ElapsedIsRealTime(p.startedAt, clock(p.readings), interval);
  }

  lemma DueFlushFollows(p: Pipe, clock: nat -> nat, q: Pipe, time: nat)
    requires PipeOk(p) && clock(p.readings) <= time
    requires q.emitted == Flush(p.(readings := p.readings + 1), clock, Timer).emitted
    ensures LeftBy(p, q, time)
  {
    hide LeftBy, BufferOk;
    assert q.emitted == q.emitted + [];
    FlushLeaves(p.(readings := p.readings + 1), clock, Timer, [], q, time);
    ReadingsDoNotMatter(p, q, time);
  }

  lemma ReadingsDoNotMatter(p: Pipe, q: Pipe, time: nat)
    ensures LeftBy(p.(readings := p.readings + 1), q, time) ==> LeftBy(p, q, time)
  {
  }

  lemma UpdateFollows(p: Pipe, clock: nat -> nat, interval: uint32, gap: nat)
    requires Monotone(clock) && Timely(p, clock, interval) && InTime(p, clock, gap)
    requires interval > 0 && interval + gap <= 0x1_0000_0000
    ensures var q := UpdateWindow(p, clock, interval); Timely(q, clock, interval) && Follows(p, q, interval + gap)
  {
    hide Elapsed, PipeOk, Monotone, LeftBy;
    UpdatePipe(p, clock, interval);
    if !p.active {
      FollowsSelf(p, interval + gap);
    } else {
      NextReading(p, clock);
      DueTickFlushes(p, clock, interval);
      ElapsedIsRealTime(p.startedAt, clock(p.readings), interval);
      var q := UpdateWindow(p, clock, interval);
      if clock(p.readings) < p.startedAt + interval {
        assert Grown(p.pending, q.pending);
      } else if p.pending != [] {
        DueFlushFollows(p, clock, q, p.startedAt + interval + gap);
      } else {
        NothingLeaves(p, q, p.startedAt + interval + gap);
      }
    }
  }

  lemma BarrierFollows(p: Pipe, clock: nat -> nat, interval: uint32, slack: nat, e: HidEvent)
    requires Timely(p, clock, interval) && slack >= interval
    ensures var q := PassBarrier(p, clock, e); Timely(q, clock, interval) && Follows(p, q, slack)
  {
    hide PipeOk;
    var q := PassBarrier(p, clock, e);
    BarrierPipe(p, clock, e);
    NothingWaits(p);
    if p.pending != [] {
      FlushLeaves(p, clock, Drained, Emissions([e], Now(p, clock), Barrier), q, p.startedAt + slack);
    }
  }

  lemma NothingWaits(p: Pipe)
    requires PipeOk(p)
    ensures p.pending != [] ==> p.active
  {
  }

  lemma AcceptGrows(p: Pipe, e: HidEvent)
    requires e.item.Some? && Accept(p, e).Some?
    ensures Grown(p.pending, Accept(p, e).value)
  {
  }

  lemma AccumulateFollows(p: Pipe, clock: nat -> nat, interval: uint32, slack: nat, e: HidEvent)
    requires Timely(p, clock, interval) && slack >= interval && interval > 0 && p.active && !e.IsBarrier()
    ensures var q := Accumulate(p, clock, e); Timely(q, clock, interval) && q.active && Follows(p, q, slack)
  {
    hide Accept, BufferOk, Grown, LeftBy;
    MergeableHasItem(e);
    var q := Accumulate(p, clock, e);
    if Accept(p, e).Some? {
      AcceptedKeeps(p, e);
      AcceptGrows(p, e);
    } else {
      var flushed := Flush(p, clock, Pressure);
      EmptyBufferOk();
      EmptyAccepts(flushed, e);
      AcceptedKeeps(flushed, e);
      assert q.emitted == flushed.emitted + [];
      FlushLeaves(p, clock, Pressure, [], q, p.startedAt + slack);
    }
  }

  lemma {:induction false} AccumulateAllFollows(p: Pipe, clock: nat -> nat, interval: uint32, slack: nat,
                                                events: seq<HidEvent>, from: nat, end: nat)
    requires Timely(p, clock, interval) && slack >= interval && interval > 0 && p.active
    requires from <= end <= |events| && NoBarriers(events, from, end)
    ensures var q := AccumulateAll(p, clock, events, from, end);
      Timely(q, clock, interval) && q.active && Follows(p, q, slack)
    decreases end
  {
    hide Timely, Accumulate, Follows;
    if from == end {
      SelfIsTimely(p, clock, interval, slack);
    } else {
      var before := AccumulateAll(p, clock, events, from, end - 1);
      AccumulateAllFollows(p, clock, interval, slack, events, from, end - 1);
      AccumulateFollows(before, clock, interval, slack, events[end - 1]);
      Chain(p, before, Accumulate(before, clock, events[end - 1]), slack);
    }
  }

  lemma SelfIsTimely(p: Pipe, clock: nat -> nat, interval: uint32, slack: nat)
    requires Timely(p, clock, interval)
    ensures Follows(p, p, slack)
  {
    hide PipeOk;
    FollowsSelf(p, slack);
  }

  lemma RunFollows(p: Pipe, clock: nat -> nat, interval: uint32, slack: nat, events: seq<HidEvent>, from: nat, end: nat)
    requires Timely(p, clock, interval) && slack >= interval && interval > 0
    requires from <= end <= |events| && NoBarriers(events, from, end)
    ensures var q := PassRun(p, clock, events, from, end); Timely(q, clock, interval) && Follows(p, q, slack)
  {
    if p.active {
      AccumulateAllFollows(p, clock, interval, slack, events, from, end);
    }
  }

  lemma {:induction false} PassFollows(p: Pipe, clock: nat -> nat, interval: uint32, slack: nat,
                                       events: seq<HidEvent>, i: nat)
    requires Timely(p, clock, interval) && slack >= interval && interval > 0 && i <= |events|
    ensures var q := PassFrom(p, clock, interval, events, i); Timely(q, clock, interval) && Follows(p, q, slack)
    decreases |events| - i
  {
    hide Timely, PassBarrier, PassRun, Follows;
    if i == |events| {
      SelfIsTimely(p, clock, interval, slack);
    } else if events[i].IsBarrier() {
      var next := PassBarrier(p, clock, events[i]);
      BarrierFollows(p, clock, interval, slack, events[i]);
      PassFollows(next, clock, interval, slack, events, i + 1);
      Chain(p, next, PassFrom(next, clock, interval, events, i + 1), slack);
    } else {
      var end := RunEnd(events, i + 1);
      RunEndBounds(events, i + 1);
      var next := PassRun(p, clock, events, i, end);
      RunFollows(p, clock, interval, slack, events, i, end);
      PassFollows(next, clock, interval, slack, events, end);
      Chain(p, next, PassFrom(next, clock, interval, events, end), slack);
    }
  }

  lemma ProcessFollows(p: Pipe, clock: nat -> nat, interval: uint32, gap: nat, input: Input)
    requires Monotone(clock) && Timely(p, clock, interval) && InTime(p, clock, gap)
    requires interval > 0 && interval + gap <= 0x1_0000_0000
    ensures var q := Process(p, clock, interval, input); Timely(q, clock, interval) && Follows(p, q, interval + gap)
  {
    hide Timely, InTime, PassFrom, PassBarrier, UpdateWindow, Monotone, Follows;
    var updated := UpdateWindow(p, clock, interval);
    UpdateFollows(p, clock, interval, gap);
    if input.Report? {
      var passed := PassFrom(updated, clock, interval, input.events, 0);
      PassFollows(updated, clock, interval, interval + gap, input.events, 0);
      Chain(p, updated, passed, interval + gap);
      if input.events == [] && !input.recognized {
        BarrierFollows(passed, clock, interval, interval + gap, input.envelope);
        Chain(p, passed, PassBarrier(passed, clock, input.envelope), interval + gap);
      }
    }
  }

  // ---------- whole runs ----------

  /** While a window is open, the main loop comes round within the gap. */
  ghost predicate Punctual(clock: nat -> nat, interval: uint32, inputs: seq<Input>, gap: nat) {
    forall n | 0 <= n < |inputs| :: InTime(Run(clock, interval, inputs, n), clock, gap)
  }

  lemma {:induction false} RunIsTimely(clock: nat -> nat, interval: uint32, inputs: seq<Input>, gap: nat, n: nat)
    requires Monotone(clock) && Punctual(clock, interval, inputs, gap) && n <= |inputs|
    requires interval > 0 && interval + gap <= 0x1_0000_0000
    ensures Timely(Run(clock, interval, inputs, n), clock, interval)
  {
    hide Process, Monotone, InTime;
    if n > 0 {
      hide Timely;
      RunIsTimely(clock, interval, inputs, gap, n - 1);
      ProcessFollows(Run(clock, interval, inputs, n - 1), clock, interval, gap, inputs[n - 1]);
    }
  }

  lemma {:induction false} RunsFollow(clock: nat -> nat, interval: uint32, inputs: seq<Input>, gap: nat, n: nat, m: nat)
    requires Monotone(clock) && Punctual(clock, interval, inputs, gap) && n <= m <= |inputs|
    requires interval > 0 && interval + gap <= 0x1_0000_0000
    ensures Follows(Run(clock, interval, inputs, n), Run(clock, interval, inputs, m), interval + gap)
    decreases m
  {
    hide Process, Monotone, InTime, Follows, Timely;
    RunIsTimely(clock, interval, inputs, gap, n);
    if n == m {
      SelfIsTimely(Run(clock, interval, inputs, n), clock, interval, interval + gap);
    } else {
      var before := Run(clock, interval, inputs, m - 1);
      RunIsTimely(clock, interval, inputs, gap, m - 1);
      RunsFollow(clock, interval, inputs, gap, n, m - 1);
      ProcessFollows(before, clock, interval, gap, inputs[m - 1]);
      Chain(Run(clock, interval, inputs, n), before, Run(clock, interval, inputs, m), interval + gap);
    }
  }

  /** Latency bound: whatever is pending at some moment belongs to a window that the last reading lies
      in; once a reading lies behind the window, all of it has been emitted, as the very next emissions
      and in order, behind a reading at most the interval and the gap behind the start of the window. */
  lemma PendingLeaves(clock: nat -> nat, interval: uint32, inputs: seq<Input>, gap: nat, n: nat, m: nat)
    requires Monotone(clock) && Punctual(clock, interval, inputs, gap) && n <= m <= |inputs|
    requires interval > 0 && interval + gap <= 0x1_0000_0000
    ensures var p, q := Run(clock, interval, inputs, n), Run(clock, interval, inputs, m);
      p.pending != [] ==>
        && p.startedAt <= LastRead(p, clock) < p.startedAt + interval
        && (LastRead(q, clock) >= p.startedAt + interval ==> LeftBy(p, q, p.startedAt + interval + gap))
  {
    hide Run, Monotone, Punctual, LeftBy, Grown;
    RunIsTimely(clock, interval, inputs, gap, n);
    RunIsTimely(clock, interval, inputs, gap, m);
    RunsFollow(clock, interval, inputs, gap, n, m);
  }
}
