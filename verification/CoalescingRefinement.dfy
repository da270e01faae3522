/** The coalesced stream against the plain one: what is emitted and still pending is, for every
    aggregation key, the plain stream with neighbouring contributions merged, and never across a
    barrier. Totals and latest values therefore agree at every barrier. */
module CoalescingRefinement {
  import opened Integers
  import opened HidDecoder
  import opened EventBuffer
  import opened Coalescing

  function EventsOf(emitted: seq<Emission>): (events: seq<HidEvent>)
    ensures |events| == |emitted|
  {
    seq(|emitted|, i requires 0 <= i < |emitted| => emitted[i].event)
  }

  /** Everything the pipeline still stands for: emitted events, then the pending ones. */
  function View(p: Pipe): seq<HidEvent> {
    EventsOf(p.emitted) + PendingEvents(p.pending)
  }

  // ---------- merging of neighbours ----------

  /** Two neighbouring contributions as one event. */
  function Combine(earlier: HidEvent, later: HidEvent): HidEvent
    requires later.item.Some?
  {
    var sum := later.item.value.aggregation == Sum;
    later.WithAmounts(if sum then SaturatingAdd(earlier.Amount(), later.Amount()) else later.Amount(),
                      if sum then SaturatingAdd(earlier.RawAmount(), later.RawAmount()) else later.RawAmount())
         .(seqFrom := earlier.seqFrom)
  }

  /** The contributions `from` to `end` of a stream as one event. */
  function MergeOf(plain: seq<HidEvent>, from: nat, end: nat): HidEvent
    requires from < end <= |plain|
    requires end > from + 1 ==> NoBarriers(plain, from, end)
    decreases end
  {
    if end == from + 1 then plain[from] else Combine(MergeOf(plain, from, end - 1), plain[end - 1])
  }

  /** `o` is a single event of the stream, or merges neighbours none of which is a barrier. */
  ghost predicate IsGroup(o: HidEvent, plain: seq<HidEvent>, from: nat, end: nat) {
    && from < end <= |plain|
    && (end > from + 1 ==> NoBarriers(plain, from, end))
    && o == MergeOf(plain, from, end)
  }

  /** `shaped` cuts `plain` into groups at the given positions. */
  ghost predicate CutsInto(shaped: seq<HidEvent>, plain: seq<HidEvent>, cuts: seq<nat>) {
    && |cuts| == |shaped| + 1 && cuts[0] == 0 && cuts[|shaped|] == |plain|
    && forall i, j | 0 <= i && j == i + 1 && j < |cuts| :: IsGroup(shaped[i], plain, cuts[i], cuts[j])
  }

  ghost predicate Coalesced(shaped: seq<HidEvent>, plain: seq<HidEvent>) {
    exists cuts :: CutsInto(shaped, plain, cuts)
  }

  lemma {:induction false} MergeInPrefix(plain: seq<HidEvent>, more: seq<HidEvent>, from: nat, end: nat)
    requires from < end <= |plain|
    requires end > from + 1 ==> NoBarriers(plain, from, end)
    ensures MergeOf(plain + more, from, end) == MergeOf(plain, from, end)
    decreases end
  {
    hide Combine;
    if end > from + 1 {
      MergeInPrefix(plain, more, from, end - 1);
    }
  }

  lemma CutsInPrefix(shaped: seq<HidEvent>, plain: seq<HidEvent>, cuts: seq<nat>, more: seq<HidEvent>, i: nat)
    requires CutsInto(shaped, plain, cuts) && i < |shaped|
    ensures IsGroup(shaped[i], plain + more, cuts[i], cuts[i + 1])
  {
    assert IsGroup(shaped[i], plain, cuts[i], cuts[i + 1]);
    MergeInPrefix(plain, more, cuts[i], cuts[i + 1]);
  }

  lemma NothingCoalesced()
    ensures Coalesced([], [])
  {
    assert CutsInto([], [], [0]);
  }

  /** The same event on both sides is a group of its own. */
  lemma CoalescedAppend(shaped: seq<HidEvent>, plain: seq<HidEvent>, e: HidEvent)
    requires Coalesced(shaped, plain)
    ensures Coalesced(shaped + [e], plain + [e])
  {
    var cuts: seq<nat> :| CutsInto(shaped, plain, cuts);
    var cuts': seq<nat> := cuts + [|plain| + 1];
    forall i, j | 0 <= i && j == i + 1 && j < |cuts'|
      ensures IsGroup((shaped + [e])[i], plain + [e], cuts'[i], cuts'[j])
    {
      if i < |shaped| {
        CutsInPrefix(shaped, plain, cuts, [e], i);
      }
    }
    assert CutsInto(shaped + [e], plain + [e], cuts');
  }

  /** A new contribution joins the last group. */
  lemma CoalescedMerge(shaped: seq<HidEvent>, o: HidEvent, plain: seq<HidEvent>, e: HidEvent)
    requires Coalesced(shaped + [o], plain) && !o.IsBarrier() && !e.IsBarrier()
    ensures Coalesced(shaped + [Combine(o, e)], plain + [e])
  {
    var cuts: seq<nat> :| CutsInto(shaped + [o], plain, cuts);
    var n := |shaped|;
    var cuts': seq<nat> := cuts[..n + 1] + [|plain| + 1];
    assert IsGroup((shaped + [o])[n], plain, cuts[n], cuts[n + 1]);
    MergeInPrefix(plain, [e], cuts[n], |plain|);
    forall i, j | 0 <= i && j == i + 1 && j < |cuts'|
      ensures IsGroup((shaped + [Combine(o, e)])[i], plain + [e], cuts'[i], cuts'[j])
    {
      if i < n {
        CutsInPrefix(shaped + [o], plain, cuts, [e], i);
      }
    }
    assert CutsInto(shaped + [Combine(o, e)], plain + [e], cuts');
  }

  // ---------- one key ----------

  /** The events that matter for a key: its contributions and all barriers. */
  predicate Relevant(e: HidEvent, key: Key) {
    e.IsBarrier() || KeyOf(e) == key
  }

  function Project(events: seq<HidEvent>, key: Key): seq<HidEvent> {
    if events == [] then []
    else
      var last := events[|events| - 1];
      Project(events[..|events| - 1], key) + (if Relevant(last, key) then [last] else [])
  }

  lemma {:induction false} ProjectConcat(a: seq<HidEvent>, b: seq<HidEvent>, key: Key)
    ensures Project(a + b, key) == Project(a, key) + Project(b, key)
  {
    hide Relevant;
    if b == [] {
      assert a + b == a;
    } else {
      assert (a + b)[..|a + b| - 1] == a + b[..|b| - 1];
      ProjectConcat(a, b[..|b| - 1], key);
    }
  }

  lemma ProjectOne(e: HidEvent, key: Key)
    ensures Project([e], key) == if Relevant(e, key) then [e] else []
  {
    assert [e][..0] == [];
  }

  ghost predicate EntryOk(entry: Pending) {
    && entry.event.item.Some? && !entry.event.IsBarrier() && KeyOf(entry.event) == entry.key
    && entry.event.Amount() == entry.value && entry.event.RawAmount() == entry.raw
  }

  ghost predicate BufferOk(pending: seq<Pending>) {
    && |pending| <= CAPACITY
    && (forall i | 0 <= i < |pending| :: EntryOk(pending[i]))
    && (forall i, j | 0 <= i < j < |pending| :: pending[i].key != pending[j].key)
  }

  /** A closed window has an empty buffer, and buffered keys are distinct. */
  ghost predicate PipeOk(p: Pipe) {
    BufferOk(p.pending) && (!p.active ==> p.pending == [])
  }

  /** Among the pending events a key occurs at most once. */
  lemma {:induction false} ProjectPending(pending: seq<Pending>, key: Key, n: nat)
    requires BufferOk(pending) && n <= |pending|
    ensures Project(PendingEvents(pending)[..n], key)
      == (var i := FindKey(pending, key); if i < n then [pending[i].event] else [])
  {
    hide Project;
    var events := PendingEvents(pending);
    if n == 0 {
      ProjectNothing(key);
    } else {
      ProjectPending(pending, key, n - 1);
      assert events[..n] == events[..n - 1] + [events[n - 1]];
      ProjectConcat(events[..n - 1], [events[n - 1]], key);
      ProjectOne(events[n - 1], key);
      assert EntryOk(pending[n - 1]);
    }
  }

  lemma ProjectNothing(key: Key)
    ensures Project([], key) == []
  {
  }

  lemma ProjectBuffer(pending: seq<Pending>, key: Key)
    requires BufferOk(pending)
    ensures Project(PendingEvents(pending), key)
      == (var i := FindKey(pending, key); if i < |pending| then [pending[i].event] else [])
  {
    ProjectPending(pending, key, |pending|);
    assert PendingEvents(pending)[..|pending|] == PendingEvents(pending);
  }

  /** The pipeline stands for the plain stream, key by key. */
  ghost predicate StandsFor(p: Pipe, plain: seq<HidEvent>, key: Key) {
    Coalesced(Project(View(p), key), Project(plain, key))
  }

  ghost predicate Faithful(p: Pipe, plain: seq<HidEvent>) {
    PipeOk(p) && forall key :: StandsFor(p, plain, key)
  }

  // ---------- the steps ----------

  /** Appending the same events to both sides keeps them in agreement. */
  lemma {:induction false} CoalescedConcat(shaped: seq<HidEvent>, plain: seq<HidEvent>, more: seq<HidEvent>)
    requires Coalesced(shaped, plain)
    ensures Coalesced(shaped + more, plain + more)
  {
    hide Coalesced;
    if more == [] {
      assert shaped + more == shaped && plain + more == plain;
    } else {
      var n := |more| - 1;
      CoalescedConcat(shaped, plain, more[..n]);
      CoalescedAppend(shaped + more[..n], plain + more[..n], more[n]);
      assert shaped + more == (shaped + more[..n]) + [more[n]];
      assert plain + more == (plain + more[..n]) + [more[n]];
    }
  }

  lemma EmissionEvents(a: seq<Emission>, events: seq<HidEvent>, moment: Moment, cause: Cause)
    ensures EventsOf(a + Emissions(events, moment, cause)) == EventsOf(a) + events
  {
  }

  lemma EmitView(p: Pipe, clock: nat -> nat, events: seq<HidEvent>, cause: Cause)
    requires p.pending == []
    ensures View(Emit(p, clock, events, cause)) == View(p) + events
  {
    hide EventsOf;
    EmissionEvents(p.emitted, events, Now(p, clock), cause);
    assert PendingEvents(p.pending) == [];
  }

  /** Emptying the buffer into the output changes nothing. */
  lemma FlushView(p: Pipe, clock: nat -> nat, cause: Cause)
    ensures View(Flush(p, clock, cause)) == View(p)
  {
    hide EventsOf;
    EmissionEvents(p.emitted, PendingEvents(p.pending), Now(p, clock), cause);
    assert PendingEvents([]) == [];
  }

  lemma AppendedStandsFor(p: Pipe, p': Pipe, plain: seq<HidEvent>, more: seq<HidEvent>, key: Key)
    requires StandsFor(p, plain, key) && View(p') == View(p) + more
    ensures StandsFor(p', plain + more, key)
  {
    hide Project, View, Coalesced;
    ProjectConcat(View(p), more, key);
    ProjectConcat(plain, more, key);
    CoalescedConcat(Project(View(p), key), Project(plain, key), Project(more, key));
  }

  lemma AppendedFaithful(p: Pipe, p': Pipe, plain: seq<HidEvent>, more: seq<HidEvent>)
    requires Faithful(p, plain) && View(p') == View(p) + more && PipeOk(p')
    ensures Faithful(p', plain + more)
  {
    hide PipeOk, StandsFor, View;
    forall key
      ensures StandsFor(p', plain + more, key)
    {
      AppendedStandsFor(p, p', plain, more, key);
    }
  }

  lemma SameViewFaithful(p: Pipe, p': Pipe, plain: seq<HidEvent>)
    requires Faithful(p, plain) && View(p') == View(p) && PipeOk(p')
    ensures Faithful(p', plain)
  {
    hide PipeOk, View;
    forall key
      ensures StandsFor(p', plain, key)
    {
      assert StandsFor(p, plain, key);
    }
  }

  lemma BarrierFaithful(p: Pipe, clock: nat -> nat, plain: seq<HidEvent>, e: HidEvent)
    requires Faithful(p, plain)
    ensures Faithful(PassBarrier(p, clock, e), plain + [e])
    ensures PassBarrier(p, clock, e).pending == []
  {
    hide Faithful, View;
    var flushed := Flush(p, clock, Drained);
    FlushView(p, clock, Drained);
    EmitView(flushed, clock, [e], Barrier);
    BarrierPipe(p, clock, e);
    ViewOfFields(Emit(flushed, clock, [e], Barrier), PassBarrier(p, clock, e));
    AppendedFaithful(p, PassBarrier(p, clock, e), plain, [e]);
  }

  lemma ViewOfFields(p: Pipe, q: Pipe)
    requires p.emitted == q.emitted && p.pending == q.pending
    ensures View(p) == View(q)
  {
  }

  lemma BarrierPipe(p: Pipe, clock: nat -> nat, e: HidEvent)
    ensures PipeOk(PassBarrier(p, clock, e)) && PassBarrier(p, clock, e).pending == []
  {
  }

  lemma UpdateFaithful(p: Pipe, clock: nat -> nat, interval: uint32, plain: seq<HidEvent>)
    requires Faithful(p, plain)
    ensures Faithful(UpdateWindow(p, clock, interval), plain)
  {
    hide StandsFor, View, Elapsed;
    var q := UpdateWindow(p, clock, interval);
    FlushView(p.(readings := p.readings + 1), clock, Timer);
    ViewOfFields(p, p.(readings := p.readings + 1));
    if q.pending == [] && p.pending != [] {
      ViewOfFields(Flush(p.(readings := p.readings + 1), clock, Timer), q);
    } else {
      ViewOfFields(p, q);
    }
    SameViewFaithful(p, q, plain);
  }

  /** The event of a merged entry combines the old event with the new one. */
  lemma MergedEntry(entry: Pending, e: HidEvent)
    requires EntryOk(entry) && !e.IsBarrier() && KeyOf(e) == entry.key
    ensures var merged := MergeEntry(entry, e.item.value.aggregation, e.item.value.value, e.item.value.raw, e);
      merged.event == Combine(entry.event, e) && EntryOk(merged) && merged.key == entry.key
  {
  }

  /** A value taken by the buffer stands for its contribution; the retry after a flush always
      finds room, so no value is lost. */
  lemma AcceptedKeeps(p: Pipe, e: HidEvent)
    requires BufferOk(p.pending) && !e.IsBarrier() && Accept(p, e).Some?
    ensures BufferOk(Accept(p, e).value)
  {
    var i := FindKey(p.pending, KeyOf(e));
    var pending' := Accept(p, e).value;
    if i < |p.pending| {
      MergedEntry(p.pending[i], e);
    }
    forall x | 0 <= x < |pending'|
      ensures EntryOk(pending'[x])
    {
      assert x < |p.pending| ==> EntryOk(p.pending[x]);
    }
  }

  lemma AcceptedProjects(p: Pipe, e: HidEvent, key: Key)
    requires BufferOk(p.pending) && !e.IsBarrier() && Accept(p, e).Some? && BufferOk(Accept(p, e).value)
    ensures var before, after := Project(PendingEvents(p.pending), key),
      Project(PendingEvents(Accept(p, e).value), key);
      if KeyOf(e) != key then after == before
      else if before == [] then after == [e]
      else exists o :: before == [o] && !o.IsBarrier() && after == [Combine(o, e)]
  {
    hide Project, EntryOk;
    var i, pending' := FindKey(p.pending, KeyOf(e)), Accept(p, e).value;
    ProjectBuffer(p.pending, key);
    ProjectBuffer(pending', key);
    FoundAfterAccept(p, e, key);
    if i < |p.pending| {
      assert EntryOk(p.pending[i]);
      EntryIsMergeable(p.pending[i]);
      MergedEntry(p.pending[i], e);
    }
  }

  lemma EntryIsMergeable(entry: Pending)
    requires EntryOk(entry)
    ensures !entry.event.IsBarrier()
  {
  }

  lemma FoundAfterAccept(p: Pipe, e: HidEvent, key: Key)
    requires !e.IsBarrier() && Accept(p, e).Some? && BufferOk(p.pending) && BufferOk(Accept(p, e).value)
    ensures var pending', i, j := Accept(p, e).value, FindKey(p.pending, key), FindKey(Accept(p, e).value, key);
      if KeyOf(e) != key then
        (i < |p.pending| <==> j < |pending'|) && (i < |p.pending| ==> pending'[j].event == p.pending[i].event)
      else if i < |p.pending| then
        j < |pending'|
          && pending'[j] == MergeEntry(p.pending[i], e.item.value.aggregation, e.item.value.value, e.item.value.raw, e)
      else j < |pending'| && pending'[j].event == e
  {
    hide EntryOk;
    var pending', i, j := Accept(p, e).value, FindKey(p.pending, key), FindKey(Accept(p, e).value, key);
    var at := FindKey(p.pending, KeyOf(e));
    if at < |p.pending| {
      assert EntryOk(p.pending[at]);
      EntryIsKeyed(p.pending[at]);
      assert forall x | 0 <= x < |p.pending| :: pending'[x].key == p.pending[x].key;
      if i < |p.pending| {
        assert pending'[i].key == key;
      }
      assert i == j;
    } else {
      assert pending'[..|p.pending|] == p.pending;
      if i < |p.pending| {
        assert pending'[i].key == key;
      }
      if KeyOf(e) == key {
        assert pending'[|p.pending|].key == key;
      }
    }
  }

  lemma EntryIsKeyed(entry: Pending)
    requires EntryOk(entry)
    ensures entry.event.item.Some? && KeyOf(entry.event) == entry.key
  {
  }

  lemma AcceptedStandsFor(p: Pipe, plain: seq<HidEvent>, e: HidEvent, key: Key)
    requires BufferOk(p.pending) && StandsFor(p, plain, key) && !e.IsBarrier() && Accept(p, e).Some?
    ensures StandsFor(p.(pending := Accept(p, e).value), plain + [e], key)
  {
    hide Project, Accept, BufferOk, Coalesced, EventsOf, PendingEvents, Combine;
    var pending' := Accept(p, e).value;
    AcceptedKeeps(p, e);
    AcceptedProjects(p, e, key);
    var shaped, streamed := Project(EventsOf(p.emitted), key), Project(plain, key);
    ProjectConcat(EventsOf(p.emitted), PendingEvents(p.pending), key);
    ProjectConcat(EventsOf(p.emitted), PendingEvents(pending'), key);
    ProjectConcat(plain, [e], key);
    ProjectOne(e, key);
    var before := Project(PendingEvents(p.pending), key);
    if KeyOf(e) != key {
      assert streamed + [] == streamed;
    } else if before == [] {
      assert shaped + [] == shaped;
      CoalescedAppend(shaped, streamed, e);
    } else {
      var o :| before == [o] && !o.IsBarrier() && Project(PendingEvents(pending'), key) == [Combine(o, e)];
      CoalescedMerge(shaped, o, streamed, e);
    }
  }

  /** The buffer refuses exactly a value of a new key when it holds sixteen others. */
  lemma RefusedWhenFull(p: Pipe, e: HidEvent)
    requires e.item.Some?
    ensures Accept(p, e).None?
      <==> |p.pending| >= 16 && forall j | 0 <= j < |p.pending| :: p.pending[j].key != KeyOf(e)
  {
    var i := FindKey(p.pending, KeyOf(e));
  }

  /** The buffer refuses a value only when it is full; an emptied buffer takes any value. */
  lemma EmptyAccepts(p: Pipe, e: HidEvent)
    requires p.pending == [] && e.item.Some?
    ensures Accept(p, e).Some?
  {
  }

  lemma AccumulateFaithful(p: Pipe, clock: nat -> nat, plain: seq<HidEvent>, e: HidEvent)
    requires Faithful(p, plain) && p.active && !e.IsBarrier()
    ensures Faithful(Accumulate(p, clock, e), plain + [e]) && Accumulate(p, clock, e).active
  {
    hide StandsFor, Accept, View, BufferOk;
    var q := p;
    if Accept(p, e).None? {
      q := Flush(p, clock, Pressure);
      FlushView(p, clock, Pressure);
      EmptyBufferOk();
      SameViewFaithful(p, q, plain);
      EmptyAccepts(q, e);
    }
    var taken := q.(pending := Accept(q, e).value);
    AcceptedKeeps(q, e);
    forall key
      ensures StandsFor(taken, plain + [e], key)
    {
      assert StandsFor(q, plain, key);
      AcceptedStandsFor(q, plain, e, key);
    }
    var done := Accumulate(p, clock, e);
    ViewOfFields(taken, done);
    SameViewFaithful(taken, done, plain + [e]);
  }

  lemma EmptyBufferOk()
    ensures BufferOk([])
  {
  }

  lemma {:induction false} AccumulateAllFaithful(p: Pipe, clock: nat -> nat, plain: seq<HidEvent>,
                                                 events: seq<HidEvent>, from: nat, end: nat)
    requires Faithful(p, plain) && p.active && from <= end <= |events|
    requires NoBarriers(events, from, end)
    ensures Faithful(AccumulateAll(p, clock, events, from, end), plain + events[from..end])
    ensures AccumulateAll(p, clock, events, from, end).active
    decreases end
  {
    hide Faithful, Accumulate;
    if from == end {
      assert plain + events[from..end] == plain;
    } else {
      AccumulateAllFaithful(p, clock, plain, events, from, end - 1);
      AccumulateFaithful(AccumulateAll(p, clock, events, from, end - 1), clock, plain + events[from..end - 1],
                         events[end - 1]);
      assert plain + events[from..end] == (plain + events[from..end - 1]) + [events[end - 1]];
    }
  }

  lemma RunFaithful(p: Pipe, clock: nat -> nat, plain: seq<HidEvent>, events: seq<HidEvent>, from: nat, end: nat)
    requires Faithful(p, plain) && from <= end <= |events|
    requires NoBarriers(events, from, end)
    ensures Faithful(PassRun(p, clock, events, from, end), plain + events[from..end])
  {
    if p.active {
      AccumulateAllFaithful(p, clock, plain, events, from, end);
    } else {
      hide StandsFor, View;
      var q := Emit(p, clock, events[from..end], Direct);
      EmitView(p, clock, events[from..end], Direct);
      ViewOfFields(q, PassRun(p, clock, events, from, end));
      AppendedFaithful(p, PassRun(p, clock, events, from, end), plain, events[from..end]);
    }
  }

  lemma DirectFaithful(p: Pipe, clock: nat -> nat, plain: seq<HidEvent>, e: HidEvent)
    requires Faithful(p, plain) && !p.active
    ensures Faithful(Emit(p, clock, [e], Direct), plain + [e]) && !Emit(p, clock, [e], Direct).active
  {
    hide StandsFor, View;
    EmitView(p, clock, [e], Direct);
    AppendedFaithful(p, Emit(p, clock, [e], Direct), plain, [e]);
  }

  lemma SplitRest(plain: seq<HidEvent>, events: seq<HidEvent>, i: nat, end: nat)
    requires i <= end <= |events|
    ensures plain + events[i..] == (plain + events[i..end]) + events[end..]
  {
    assert events[i..] == events[i..end] + events[end..];
  }

  lemma SplitFirst(plain: seq<HidEvent>, events: seq<HidEvent>, i: nat)
    requires i < |events|
    ensures plain + events[i..] == (plain + [events[i]]) + events[i + 1..]
  {
    assert events[i..] == [events[i]] + events[i + 1..];
  }

  lemma {:induction false} PassFaithful(p: Pipe, clock: nat -> nat, interval: uint32, plain: seq<HidEvent>,
                                        events: seq<HidEvent>, i: nat)
    requires Faithful(p, plain) && i <= |events| && (interval == 0 ==> !p.active)
    ensures Faithful(PassFrom(p, clock, interval, events, i), plain + events[i..])
    ensures interval == 0 ==> !PassFrom(p, clock, interval, events, i).active
    decreases |events| - i
  {
    hide Faithful, PassRun, PassBarrier, Emit;
    if i == |events| {
      assert plain + events[i..] == plain;
    } else if interval == 0 {
      DirectFaithful(p, clock, plain, events[i]);
      PassFaithful(Emit(p, clock, [events[i]], Direct), clock, interval, plain + [events[i]], events, i + 1);
      SplitFirst(plain, events, i);
    } else if events[i].IsBarrier() {
      BarrierFaithful(p, clock, plain, events[i]);
      PassFaithful(PassBarrier(p, clock, events[i]), clock, interval, plain + [events[i]], events, i + 1);
      SplitFirst(plain, events, i);
    } else {
      RunEndBounds(events, i + 1);
      var end := RunEnd(events, i + 1);
      RunFaithful(p, clock, plain, events, i, end);
      PassFaithful(PassRun(p, clock, events, i, end), clock, interval, plain + events[i..end], events, end);
      SplitRest(plain, events, i, end);
    }
  }

  lemma ClosedStaysClosed(p: Pipe, clock: nat -> nat, interval: uint32)
    ensures interval == 0 ==> UpdateWindow(p, clock, interval) == p
  {
  }

  lemma ProcessFaithful(p: Pipe, clock: nat -> nat, interval: uint32, plain: seq<HidEvent>, input: Input)
    requires Faithful(p, plain) && (interval == 0 ==> !p.active)
    ensures Faithful(Process(p, clock, interval, input), plain + PlainOf(input))
    ensures interval == 0 ==> !Process(p, clock, interval, input).active
  {
    hide Faithful, PassFrom, UpdateWindow;
    UpdateFaithful(p, clock, interval, plain);
    ClosedStaysClosed(p, clock, interval);
    match input {
      case Tick =>
        assert plain + [] == plain;
      case Report(events, recognized, envelope) =>
        var q := PassFrom(UpdateWindow(p, clock, interval), clock, interval, events, 0);
        PassFaithful(UpdateWindow(p, clock, interval), clock, interval, plain, events, 0);
        assert events[0..] == events;
        if events == [] {
          assert plain + events == plain;
          BarrierFaithful(q, clock, plain, envelope);
        }
    }
  }

  /** Over every run of ticks and reports, at every moment: emitted plus pending is the plain
      stream, per key, with neighbours merged and no barrier crossed. */
  lemma {:induction false} RunIsFaithful(clock: nat -> nat, interval: uint32, inputs: seq<Input>, n: nat)
    requires n <= |inputs|
    ensures Faithful(Run(clock, interval, inputs, n), Plain(inputs, n))
    ensures interval == 0 ==> !Run(clock, interval, inputs, n).active
  {
    hide Faithful, Process;
    if n == 0 {
      IdleIsFaithful();
    } else {
      RunIsFaithful(clock, interval, inputs, n - 1);
      ProcessFaithful(Run(clock, interval, inputs, n - 1), clock, interval, Plain(inputs, n - 1), inputs[n - 1]);
    }
  }

  lemma IdleIsFaithful()
    ensures Faithful(IDLE, [])
  {
    forall key
      ensures StandsFor(IDLE, [], key)
    {
      assert View(IDLE) == [];
      NothingCoalesced();
    }
  }

  // ---------- totals, latest values and barriers ----------

  /** Sum of a key's contributions among the first `n` events. */
  function Total(events: seq<HidEvent>, key: Key, n: nat): int
    requires n <= |events|
  {
    if n == 0 then 0
    else
      var e := events[n - 1];
      Total(events, key, n - 1) + (if !e.IsBarrier() && KeyOf(e) == key then e.Amount() else 0)
  }

  /** A key's last contribution among the first `n` events. */
  function Latest(events: seq<HidEvent>, key: Key, n: nat): Option<int>
    requires n <= |events|
  {
    if n == 0 then None
    else
      var e := events[n - 1];
      if !e.IsBarrier() && KeyOf(e) == key then Some(e.Amount()) else Latest(events, key, n - 1)
  }

  /** A barrier with what a key amounts to in front of it. */
  datatype Mark = Mark(barrier: HidEvent, amount: Option<int>)

  /** The barriers among the first `n` events, each with the key's total in front of it. */
  function TotalMarks(events: seq<HidEvent>, key: Key, n: nat): seq<Mark>
    requires n <= |events|
  {
    if n == 0 then []
    else
      TotalMarks(events, key, n - 1)
        + (if events[n - 1].IsBarrier() then [Mark(events[n - 1], Some(Total(events, key, n - 1)))] else [])
  }

  /** The barriers among the first `n` events, each with the key's latest value in front of it. */
  function LatestMarks(events: seq<HidEvent>, key: Key, n: nat): seq<Mark>
    requires n <= |events|
  {
    if n == 0 then []
    else
      LatestMarks(events, key, n - 1)
        + (if events[n - 1].IsBarrier() then [Mark(events[n - 1], Latest(events, key, n - 1))] else [])
  }

  /** Absolute contributions of a key since the last barrier. */
  function Burden(events: seq<HidEvent>, key: Key, n: nat): nat
    requires n <= |events|
  {
    if n == 0 || events[n - 1].IsBarrier() then 0
    else Burden(events, key, n - 1) + (if KeyOf(events[n - 1]) == key then Abs(events[n - 1].Amount()) else 0)
  }

  function Abs(x: int): nat {
    if x < 0 then -x else x
  }

  /** No stretch between two barriers can carry a key past int64. */
  ghost predicate Unsaturated(events: seq<HidEvent>, key: Key) {
    forall n | 0 <= n <= |events| :: Burden(events, key, n) <= INT64_MAX
  }

  /** Only contributions of one key, with one aggregation, besides barriers. */
  ghost predicate OnlyKey(events: seq<HidEvent>, key: Key, aggregation: Aggregation) {
    forall i | 0 <= i < |events| && !events[i].IsBarrier() ::
      KeyOf(events[i]) == key && events[i].item.value.aggregation == aggregation
  }

  lemma {:induction false} MergeIsContribution(plain: seq<HidEvent>, key: Key, aggregation: Aggregation, from: nat,
                                               end: nat)
    requires OnlyKey(plain, key, aggregation) && from < end <= |plain|
    requires NoBarriers(plain, from, end)
    ensures !MergeOf(plain, from, end).IsBarrier() && KeyOf(MergeOf(plain, from, end)) == key
    decreases end
  {
    if end > from + 1 {
      MergeIsContribution(plain, key, aggregation, from, end - 1);
    }
  }

  lemma {:induction false} MergedTotal(plain: seq<HidEvent>, key: Key, from: nat, end: nat)
    requires OnlyKey(plain, key, Sum) && Unsaturated(plain, key) && from < end <= |plain|
    requires NoBarriers(plain, from, end)
    ensures MergeOf(plain, from, end).Amount() == Total(plain, key, end) - Total(plain, key, from)
    ensures Abs(MergeOf(plain, from, end).Amount()) <= Burden(plain, key, end)
    decreases end
  {
    assert Burden(plain, key, end) <= INT64_MAX;
    if end > from + 1 {
      MergedTotal(plain, key, from, end - 1);
      MergeIsContribution(plain, key, Sum, from, end - 1);
    }
  }

  lemma {:induction false} MergedLatest(plain: seq<HidEvent>, key: Key, from: nat, end: nat)
    requires OnlyKey(plain, key, Aggregation.Latest) && from < end <= |plain|
    requires NoBarriers(plain, from, end)
    ensures Some(MergeOf(plain, from, end).Amount()) == Latest(plain, key, end)
    decreases end
  {
    if end > from + 1 {
      MergeIsContribution(plain, key, Aggregation.Latest, from, end - 1);
    }
  }

  lemma {:induction false} NoBarrierNoMark(plain: seq<HidEvent>, key: Key, from: nat, end: nat)
    requires from <= end <= |plain| && NoBarriers(plain, from, end)
    ensures TotalMarks(plain, key, end) == TotalMarks(plain, key, from)
    ensures LatestMarks(plain, key, end) == LatestMarks(plain, key, from)
    decreases end
  {
    if from < end {
      NoBarrierNoMark(plain, key, from, end - 1);
    }
  }

  /** Shaped and plain stream agree on every mark of a SUM key, group by group. */
  lemma {:induction false} GroupsKeepTotals(shaped: seq<HidEvent>, plain: seq<HidEvent>, cuts: seq<nat>, key: Key,
                                            n: nat)
    requires CutsInto(shaped, plain, cuts) && n <= |shaped|
    requires OnlyKey(plain, key, Sum) && Unsaturated(plain, key)
    ensures cuts[n] <= |plain|
    ensures Total(shaped, key, n) == Total(plain, key, cuts[n])
    ensures TotalMarks(shaped, key, n) == TotalMarks(plain, key, cuts[n])
  {
    hide MergeOf, Unsaturated, OnlyKey;
    if n > 0 {
      GroupsKeepTotals(shaped, plain, cuts, key, n - 1);
      var a, b := cuts[n - 1], cuts[n];
      assert IsGroup(shaped[n - 1], plain, a, b);
      if b == a + 1 {
        SingleGroup(plain, a);
      } else {
        MergedTotal(plain, key, a, b);
        MergeIsContribution(plain, key, Sum, a, b);
        NoBarrierNoMark(plain, key, a, b);
      }
    }
  }

  lemma SingleGroup(plain: seq<HidEvent>, a: nat)
    requires a < |plain|
    ensures MergeOf(plain, a, a + 1) == plain[a]
  {
  }

  lemma {:induction false} GroupsKeepLatest(shaped: seq<HidEvent>, plain: seq<HidEvent>, cuts: seq<nat>, key: Key,
                                            n: nat)
    requires CutsInto(shaped, plain, cuts) && n <= |shaped|
    requires OnlyKey(plain, key, Aggregation.Latest)
    ensures cuts[n] <= |plain|
    ensures Latest(shaped, key, n) == Latest(plain, key, cuts[n])
    ensures LatestMarks(shaped, key, n) == LatestMarks(plain, key, cuts[n])
  {
    hide MergeOf, OnlyKey;
    if n > 0 {
      GroupsKeepLatest(shaped, plain, cuts, key, n - 1);
      var a, b := cuts[n - 1], cuts[n];
      assert IsGroup(shaped[n - 1], plain, a, b);
      if b == a + 1 {
        SingleGroup(plain, a);
      } else {
        MergedLatest(plain, key, a, b);
        MergeIsContribution(plain, key, Aggregation.Latest, a, b);
        NoBarrierNoMark(plain, key, a, b);
      }
    }
  }

  /** Totals, latest values and marks behind one more event. */
  lemma MarksNext(events: seq<HidEvent>, key: Key, n: nat)
    requires n < |events|
    ensures var e := events[n]; var mine := !e.IsBarrier() && KeyOf(e) == key;
      && Total(events, key, n + 1) == Total(events, key, n) + (if mine then e.Amount() else 0)
      && Latest(events, key, n + 1) == (if mine then Some(e.Amount()) else Latest(events, key, n))
      && TotalMarks(events, key, n + 1)
         == TotalMarks(events, key, n) + (if e.IsBarrier() then [Mark(e, Some(Total(events, key, n)))] else [])
      && LatestMarks(events, key, n + 1)
         == LatestMarks(events, key, n) + (if e.IsBarrier() then [Mark(e, Latest(events, key, n))] else [])
  {
  }

  lemma NoMarks(events: seq<HidEvent>, key: Key)
    ensures Total(events, key, 0) == 0 && Latest(events, key, 0) == None
    ensures TotalMarks(events, key, 0) == [] && LatestMarks(events, key, 0) == []
  {
  }

  lemma ProjectNext(events: seq<HidEvent>, key: Key, n: nat)
    requires n < |events|
    ensures Project(events[..n + 1], key)
      == Project(events[..n], key) + (if Relevant(events[n], key) then [events[n]] else [])
  {
    hide Relevant;
    assert events[..n + 1][..n] == events[..n];
  }

  /** Looking at one key only drops events that neither add to its total nor are barriers. */
  lemma {:induction false} ProjectKeepsMarks(events: seq<HidEvent>, key: Key, n: nat)
    requires n <= |events|
    ensures var seen := Project(events[..n], key);
      && Total(seen, key, |seen|) == Total(events, key, n)
      && TotalMarks(seen, key, |seen|) == TotalMarks(events, key, n)
      && Latest(seen, key, |seen|) == Latest(events, key, n)
      && LatestMarks(seen, key, |seen|) == LatestMarks(events, key, n)
  {
    hide Project, Total, TotalMarks, Latest, LatestMarks, KeyOf;
    if n == 0 {
      ProjectNothing(key);
      assert events[..0] == [];
      NoMarks(events, key);
      NoMarks([], key);
    } else {
      var before, e := Project(events[..n - 1], key), events[n - 1];
      ProjectKeepsMarks(events, key, n - 1);
      ProjectNext(events, key, n - 1);
      MarksNext(events, key, n - 1);
      if Relevant(e, key) {
        MarksInPrefix(before, [e], key, |before|);
        MarksNext(before + [e], key, |before|);
      } else {
        assert before + [] == before;
      }
    }
  }

  lemma {:induction false} MarksInPrefix(a: seq<HidEvent>, b: seq<HidEvent>, key: Key, n: nat)
    requires n <= |a|
    ensures Total(a + b, key, n) == Total(a, key, n) && TotalMarks(a + b, key, n) == TotalMarks(a, key, n)
    ensures Latest(a + b, key, n) == Latest(a, key, n) && LatestMarks(a + b, key, n) == LatestMarks(a, key, n)
  {
    if n > 0 {
      MarksInPrefix(a, b, key, n - 1);
    }
  }

  lemma ProjectKeepsAllMarks(events: seq<HidEvent>, key: Key)
    ensures var seen := Project(events, key);
      && Total(seen, key, |seen|) == Total(events, key, |events|)
      && TotalMarks(seen, key, |seen|) == TotalMarks(events, key, |events|)
      && Latest(seen, key, |seen|) == Latest(events, key, |events|)
      && LatestMarks(seen, key, |seen|) == LatestMarks(events, key, |events|)
  {
    hide Project;
    ProjectKeepsMarks(events, key, |events|);
    assert events[..|events|] == events;
  }

  /** Pending events add no mark behind the emitted ones. */
  lemma {:induction false} PendingAddsNoMark(p: Pipe, key: Key, n: nat)
    requires PipeOk(p) && |p.emitted| <= n <= |View(p)|
    ensures TotalMarks(View(p), key, n) == TotalMarks(EventsOf(p.emitted), key, |p.emitted|)
    ensures LatestMarks(View(p), key, n) == LatestMarks(EventsOf(p.emitted), key, |p.emitted|)
    decreases n
  {
    if n == |p.emitted| {
      MarksInPrefix(EventsOf(p.emitted), PendingEvents(p.pending), key, n);
    } else {
      PendingAddsNoMark(p, key, n - 1);
      assert EntryOk(p.pending[n - 1 - |p.emitted|]);
    }
  }

  /** SUM keys: the emitted stream has the plain stream's barriers in the same order, and in front
      of each of them the key's emitted contributions add up to the same total; what is emitted and
      pending adds up to all that came in. */
  lemma SumKeysAgreeAtBarriers(clock: nat -> nat, interval: uint32, inputs: seq<Input>, key: Key)
    requires OnlyKey(Project(Plain(inputs, |inputs|), key), key, Sum)
    requires Unsaturated(Project(Plain(inputs, |inputs|), key), key)
    ensures var p, plain := Run(clock, interval, inputs, |inputs|), Plain(inputs, |inputs|);
      && TotalMarks(EventsOf(p.emitted), key, |p.emitted|) == TotalMarks(plain, key, |plain|)
      && Total(View(p), key, |View(p)|) == Total(plain, key, |plain|)
  {
    hide Project, Total, TotalMarks, CutsInto, View, Plain, Run, Unsaturated, OnlyKey, PipeOk;
    var p, plain := Run(clock, interval, inputs, |inputs|), Plain(inputs, |inputs|);
    RunIsFaithful(clock, interval, inputs, |inputs|);
    assert StandsFor(p, plain, key);
    var shaped, streamed := Project(View(p), key), Project(plain, key);
    var cuts: seq<nat> :| CutsInto(shaped, streamed, cuts);
    CutEnds(shaped, streamed, cuts);
    GroupsKeepTotals(shaped, streamed, cuts, key, |shaped|);
    ProjectKeepsAllMarks(View(p), key);
    ProjectKeepsAllMarks(plain, key);
    ViewSize(p);
    PendingAddsNoMark(p, key, |View(p)|);
  }

  lemma CutEnds(shaped: seq<HidEvent>, plain: seq<HidEvent>, cuts: seq<nat>)
    requires CutsInto(shaped, plain, cuts)
    ensures |cuts| == |shaped| + 1 && cuts[|shaped|] == |plain|
  {
  }

  lemma ViewSize(p: Pipe)
    ensures |View(p)| == |p.emitted| + |p.pending|
  {
  }

  /** LATEST keys: in front of every barrier the last emitted value is the last value received. */
  lemma LatestKeysAgreeAtBarriers(clock: nat -> nat, interval: uint32, inputs: seq<Input>, key: Key)
    requires OnlyKey(Project(Plain(inputs, |inputs|), key), key, Aggregation.Latest)
    ensures var p, plain := Run(clock, interval, inputs, |inputs|), Plain(inputs, |inputs|);
      && LatestMarks(EventsOf(p.emitted), key, |p.emitted|) == LatestMarks(plain, key, |plain|)
      && Latest(View(p), key, |View(p)|) == Latest(plain, key, |plain|)
  {
    hide Project, Latest, LatestMarks, CutsInto, View, Plain, Run, OnlyKey, PipeOk;
    var p, plain := Run(clock, interval, inputs, |inputs|), Plain(inputs, |inputs|);
    RunIsFaithful(clock, interval, inputs, |inputs|);
    assert StandsFor(p, plain, key);
    var shaped, streamed := Project(View(p), key), Project(plain, key);
    var cuts: seq<nat> :| CutsInto(shaped, streamed, cuts);
    CutEnds(shaped, streamed, cuts);
    GroupsKeepLatest(shaped, streamed, cuts, key, |shaped|);
    ProjectKeepsAllMarks(View(p), key);
    ProjectKeepsAllMarks(plain, key);
    ViewSize(p);
    PendingAddsNoMark(p, key, |View(p)|);
  }

  // ---------- the barriers alone ----------

  /** The barriers among the first `n` events. */
  function Barriers(events: seq<HidEvent>, n: nat): seq<HidEvent>
    requires n <= |events|
  {
    if n == 0 then [] else Barriers(events, n - 1) + (if events[n - 1].IsBarrier() then [events[n - 1]] else [])
  }

  lemma {:induction false} BarriersInPrefix(a: seq<HidEvent>, b: seq<HidEvent>, n: nat)
    requires n <= |a|
    ensures Barriers(a + b, n) == Barriers(a, n)
  {
    if n > 0 {
      BarriersInPrefix(a, b, n - 1);
    }
  }

  lemma {:induction false} ProjectKeepsBarriers(events: seq<HidEvent>, key: Key, n: nat)
    requires n <= |events|
    ensures var seen := Project(events[..n], key); Barriers(seen, |seen|) == Barriers(events, n)
  {
    if n > 0 {
      var before, e := Project(events[..n - 1], key), events[n - 1];
      ProjectKeepsBarriers(events, key, n - 1);
      assert events[..n][..n - 1] == events[..n - 1];
      BarriersInPrefix(before, [e], |before|);
      assert before + [] == before;
    }
  }

  lemma {:induction false} NoBarriersBetween(plain: seq<HidEvent>, from: nat, end: nat)
    requires from <= end <= |plain| && NoBarriers(plain, from, end)
    ensures Barriers(plain, end) == Barriers(plain, from)
    decreases end
  {
    if from < end {
      NoBarriersBetween(plain, from, end - 1);
    }
  }

  lemma {:induction false} GroupsKeepBarriers(shaped: seq<HidEvent>, plain: seq<HidEvent>, cuts: seq<nat>, n: nat)
    requires CutsInto(shaped, plain, cuts) && n <= |shaped|
    ensures cuts[n] <= |plain| && Barriers(shaped, n) == Barriers(plain, cuts[n])
  {
    hide MergeOf;
    if n > 0 {
      GroupsKeepBarriers(shaped, plain, cuts, n - 1);
      var a, b := cuts[n - 1], cuts[n];
      assert IsGroup(shaped[n - 1], plain, a, b);
      if b == a + 1 {
        SingleGroup(plain, a);
      } else {
        MergedBarrier(plain, a, b);
        NoBarriersBetween(plain, a, b);
      }
    }
  }

  lemma {:induction false} PendingAddsNoBarrier(p: Pipe, n: nat)
    requires PipeOk(p) && |p.emitted| <= n <= |View(p)|
    ensures Barriers(View(p), n) == Barriers(EventsOf(p.emitted), |p.emitted|)
    decreases n
  {
    if n == |p.emitted| {
      BarriersInPrefix(EventsOf(p.emitted), PendingEvents(p.pending), n);
    } else {
      PendingAddsNoBarrier(p, n - 1);
      assert EntryOk(p.pending[n - 1 - |p.emitted|]);
    }
  }

  /** At every moment of every run, the barriers emitted so far are the barriers of the plain stream:
      none is delayed, lost, repeated or reordered. */
  lemma BarriersKept(clock: nat -> nat, interval: uint32, inputs: seq<Input>, n: nat)
    requires n <= |inputs|
    ensures var p, plain := Run(clock, interval, inputs, n), Plain(inputs, n);
      Barriers(EventsOf(p.emitted), |p.emitted|) == Barriers(plain, |plain|)
  {
    hide Project, CutsInto, View, Plain, Run, PipeOk, Barriers;
    var p, plain, key := Run(clock, interval, inputs, n), Plain(inputs, n), Key(0, 0, 0, INPUT_KIND);
    RunIsFaithful(clock, interval, inputs, n);
    assert StandsFor(p, plain, key);
    var shaped, streamed := Project(View(p), key), Project(plain, key);
    var cuts: seq<nat> :| CutsInto(shaped, streamed, cuts);
    CutEnds(shaped, streamed, cuts);
    GroupsKeepBarriers(shaped, streamed, cuts, |shaped|);
    assert View(p)[..|View(p)|] == View(p) && plain[..|plain|] == plain;
    ProjectKeepsBarriers(View(p), key, |View(p)|);
    ProjectKeepsBarriers(plain, key, |plain|);
    ViewSize(p);
    PendingAddsNoBarrier(p, |View(p)|);
  }

  /** Without a sampling interval the pipeline is the plain stream itself. */
  lemma {:induction false} DisabledIsPlain(clock: nat -> nat, inputs: seq<Input>, n: nat)
    requires n <= |inputs|
    ensures EventsOf(Run(clock, 0, inputs, n).emitted) == Plain(inputs, n)
    ensures Run(clock, 0, inputs, n).pending == []
  {
    hide Process;
    if n > 0 {
      DisabledIsPlain(clock, inputs, n - 1);
      RunIsFaithful(clock, 0, inputs, n - 1);
      DisabledProcess(Run(clock, 0, inputs, n - 1), clock, inputs[n - 1]);
    }
  }

  lemma DisabledProcess(p: Pipe, clock: nat -> nat, input: Input)
    requires p.pending == []
    ensures EventsOf(Process(p, clock, 0, input).emitted) == EventsOf(p.emitted) + PlainOf(input)
    ensures Process(p, clock, 0, input).pending == []
  {
    hide EventsOf, PassFrom;
    if input.Report? {
      var q := PassFrom(p, clock, 0, input.events, 0);
      DisabledPass(p, clock, input.events, 0);
      assert input.events[0..] == input.events;
      if input.events == [] {
        assert EventsOf(p.emitted) + input.events == EventsOf(p.emitted);
        var flushed := Flush(q, clock, Drained);
        EmissionEvents(q.emitted, [], Now(q, clock), Drained);
        assert PendingEvents(q.pending) == [];
        assert EventsOf(q.emitted) + [] == EventsOf(q.emitted);
        EmissionEvents(flushed.emitted, [input.envelope], Now(flushed, clock), Barrier);
      }
    } else {
      assert EventsOf(p.emitted) + [] == EventsOf(p.emitted);
    }
  }

  lemma {:induction false} DisabledPass(p: Pipe, clock: nat -> nat, events: seq<HidEvent>, i: nat)
    requires p.pending == [] && i <= |events|
    ensures EventsOf(PassFrom(p, clock, 0, events, i).emitted) == EventsOf(p.emitted) + events[i..]
    ensures PassFrom(p, clock, 0, events, i).pending == []
    decreases |events| - i
  {
    hide EventsOf;
    if i == |events| {
      assert EventsOf(p.emitted) + events[i..] == EventsOf(p.emitted);
    } else {
      EmissionEvents(p.emitted, [events[i]], Now(p, clock), Direct);
      DisabledPass(Emit(p, clock, [events[i]], Direct), clock, events, i + 1);
      SplitFirst(EventsOf(p.emitted), events, i);
    }
  }

  // ---------- provenance ----------

  lemma {:induction false} MergedSpan(plain: seq<HidEvent>, from: nat, end: nat)
    requires from < end <= |plain|
    requires end > from + 1 ==> NoBarriers(plain, from, end)
    ensures MergeOf(plain, from, end).seqFrom == plain[from].seqFrom
    ensures MergeOf(plain, from, end).seqTo == plain[end - 1].seqTo
    decreases end
  {
    if end > from + 1 {
      MergedSpan(plain, from, end - 1);
    }
  }

  /** Contributions of a key carry ascending sequence numbers. */
  ghost predicate Ascending(events: seq<HidEvent>) {
    forall a, b | 0 <= a < b < |events| && !events[a].IsBarrier() && !events[b].IsBarrier() ::
      events[a].seqTo < events[b].seqFrom
  }

  lemma {:induction false} CutsAscend(shaped: seq<HidEvent>, plain: seq<HidEvent>, cuts: seq<nat>, i: nat, j: nat)
    requires CutsInto(shaped, plain, cuts) && i <= j <= |shaped|
    ensures cuts[i] <= cuts[j] <= |plain|
    decreases j
  {
    if i < j {
      CutsAscend(shaped, plain, cuts, i, j - 1);
      assert IsGroup(shaped[j - 1], plain, cuts[j - 1], cuts[j]);
    } else if i < |shaped| {
      assert IsGroup(shaped[i], plain, cuts[i], cuts[i + 1]);
    }
  }

  /** Everything but the amounts and the start of the span is that of the newest contribution. */
  predicate CarriesNewest(o: HidEvent, newest: HidEvent) {
    && o.source == newest.source && o.payload == newest.payload && o.status == newest.status
    && o.seqTo == newest.seqTo && (o.item.Some? <==> newest.item.Some?)
    && (o.item.Some? ==>
          o.item.value == newest.item.value.(value := o.item.value.value, raw := o.item.value.raw))
  }

  lemma {:induction false} MergedNewest(plain: seq<HidEvent>, from: nat, end: nat)
    requires from < end <= |plain|
    requires end > from + 1 ==> NoBarriers(plain, from, end)
    ensures CarriesNewest(MergeOf(plain, from, end), plain[end - 1])
    decreases end
  {
    if end > from + 1 {
      MergedNewest(plain, from, end - 1);
    }
  }

  predicate SpansFrom(o: HidEvent, plain: seq<HidEvent>, from: nat, end: nat) {
    from < end <= |plain| && o.seqFrom == plain[from].seqFrom && CarriesNewest(o, plain[end - 1])
  }

  /** Each shaped event spans from the first to the last of the contributions that it stands for, and looks
      like the last one. */
  ghost predicate SpansContributions(shaped: seq<HidEvent>, plain: seq<HidEvent>, cuts: seq<nat>) {
    && CutsInto(shaped, plain, cuts)
    && forall i, j | 0 <= i && j == i + 1 && j < |cuts| :: SpansFrom(shaped[i], plain, cuts[i], cuts[j])
  }

  ghost predicate Spanned(shaped: seq<HidEvent>, plain: seq<HidEvent>) {
    exists cuts :: SpansContributions(shaped, plain, cuts)
  }

  lemma GroupsSpan(shaped: seq<HidEvent>, plain: seq<HidEvent>, cuts: seq<nat>)
    requires CutsInto(shaped, plain, cuts)
    ensures Spanned(shaped, plain)
  {
    hide MergeOf;
    forall i, j | 0 <= i && j == i + 1 && j < |cuts|
      ensures SpansFrom(shaped[i], plain, cuts[i], cuts[j])
    {
      assert IsGroup(shaped[i], plain, cuts[i], cuts[j]);
      MergedSpan(plain, cuts[i], cuts[j]);
      MergedNewest(plain, cuts[i], cuts[j]);
    }
    assert SpansContributions(shaped, plain, cuts);
  }

  /** An emitted event spans from its first to its last contribution, has everything but its amounts from
      the last one, and the spans of one key are disjoint and ascend. */
  lemma SpansAscend(clock: nat -> nat, interval: uint32, inputs: seq<Input>, key: Key)
    requires Ascending(Project(Plain(inputs, |inputs|), key))
    ensures var shaped := Project(View(Run(clock, interval, inputs, |inputs|)), key);
      Spanned(shaped, Project(Plain(inputs, |inputs|), key)) && Ascending(shaped)
  {
    hide Project, View, Plain, Run, PipeOk, MergeOf, Spanned;
    var p, plain := Run(clock, interval, inputs, |inputs|), Plain(inputs, |inputs|);
    RunIsFaithful(clock, interval, inputs, |inputs|);
    assert StandsFor(p, plain, key);
    var shaped, streamed := Project(View(p), key), Project(plain, key);
    var cuts: seq<nat> :| CutsInto(shaped, streamed, cuts);
    GroupsSpan(shaped, streamed, cuts);
    forall a, b | 0 <= a < b < |shaped| && !shaped[a].IsBarrier() && !shaped[b].IsBarrier()
      ensures shaped[a].seqTo < shaped[b].seqFrom
    {
      assert IsGroup(shaped[a], streamed, cuts[a], cuts[a + 1]);
      assert IsGroup(shaped[b], streamed, cuts[b], cuts[b + 1]);
      CutsAscend(shaped, streamed, cuts, a + 1, b);
      MergedSpan(streamed, cuts[a], cuts[a + 1]);
      MergedSpan(streamed, cuts[b], cuts[b + 1]);
      MergedBarrier(streamed, cuts[a], cuts[a + 1]);
      MergedBarrier(streamed, cuts[b], cuts[b + 1]);
    }
  }

  lemma MergedBarrier(plain: seq<HidEvent>, from: nat, end: nat)
    requires from < end <= |plain|
    requires end > from + 1 ==> NoBarriers(plain, from, end)
    ensures MergeOf(plain, from, end).IsBarrier() == plain[from].IsBarrier() == plain[end - 1].IsBarrier()
  {
  }
}
