/** The bounded drop-oldest FIFO between the notification callback and the main loop:
    `enqueue_input_report_` and the dequeue in `loop` of ble_client_hid.cpp. */
module ReportQueue {
  import opened Integers
  import opened HidDecoder

  const MAX_PENDING_REPORTS := 64
  const MAX_REPORT_PAYLOAD_BYTES := 512
  const MAX_PENDING_REPORT_BYTES := 4096

  datatype Report = Report(source: Source, payload: seq<uint8>, seqId: nat)

  function BytesIn(queue: seq<Report>): nat {
    if queue == [] then 0 else |queue[0].payload| + BytesIn(queue[1..])
  }

  /** A payload of the given size may be queued behind these reports. */
  predicate HasRoom(queue: seq<Report>, size: nat) {
    queue == [] || (|queue| < MAX_PENDING_REPORTS && BytesIn(queue) + size <= MAX_PENDING_REPORT_BYTES)
  }

  /** The number of reports dropped from the front. */
  function Drops(queue: seq<Report>, size: nat): (k: nat)
    ensures k <= |queue|
  {
    if HasRoom(queue, size) then 0 else 1 + Drops(queue[1..], size)
  }

  /** Null data with a length, and oversized payloads, are ignored. */
  function Admitted(payload: Buffer): Option<seq<uint8>> {
    match payload
    case Null(length) => if length != 0 then None else Some([])
    case Bytes(bytes) => if |bytes| > MAX_REPORT_PAYLOAD_BYTES then None else Some(bytes)
  }

  function Enqueued(queue: seq<Report>, report: Report): seq<Report> {
    queue[Drops(queue, |report.payload|)..] + [report]
  }

  ghost predicate Within(queue: seq<Report>) {
    |queue| <= MAX_PENDING_REPORTS && BytesIn(queue) <= MAX_PENDING_REPORT_BYTES
  }

  lemma {:induction false} BytesConcat(a: seq<Report>, b: seq<Report>)
    ensures BytesIn(a + b) == BytesIn(a) + BytesIn(b)
  {
    if a == [] {
      assert a + b == b;
    } else {
      BytesConcat(a[1..], b);
      assert (a + b)[1..] == a[1..] + b;
      assert (a + b)[0] == a[0];
    }
  }

  /** The drop loop in terms of HasRoom. */
  lemma {:induction false} DropsUntilRoom(queue: seq<Report>, size: nat)
    ensures HasRoom(queue[Drops(queue, size)..], size)
    ensures forall j: nat | j < Drops(queue, size) :: !HasRoom(queue[j..], size)
  {
    hide HasRoom;
    assert queue[0..] == queue;
    if !HasRoom(queue, size) {
      EmptyHasRoom(queue, size);
      DropsUntilRoom(queue[1..], size);
      var k := Drops(queue[1..], size);
      assert queue[1..][k..] == queue[k + 1..];
      forall j: nat | j < k + 1
        ensures !HasRoom(queue[j..], size)
      {
        if j > 0 {
          assert queue[1..][j - 1..] == queue[j..];
        }
      }
    }
  }

  /** The shortest prefix is dropped: what stays leaves room within 64 reports and 4096 bytes or is nothing
      at all, and any longer rest would have gone past one of the two limits. */
  lemma DropsIsLeast(queue: seq<Report>, size: nat)
    ensures var rest := queue[Drops(queue, size)..];
      rest == [] || (|rest| + 1 <= 64 && BytesIn(rest) + size <= 4096)
    ensures forall j: nat | j < Drops(queue, size) :: |queue| - j + 1 > 64 || BytesIn(queue[j..]) + size > 4096
  {
    hide BytesIn, Drops;
    DropsUntilRoom(queue, size);
    forall j: nat | j < Drops(queue, size)
      ensures |queue| - j + 1 > 64 || BytesIn(queue[j..]) + size > 4096
    {
      assert !HasRoom(queue[j..], size);
    }
  }

  lemma EmptyHasRoom(queue: seq<Report>, size: nat)
    requires !HasRoom(queue, size)
    ensures queue != []
  {
  }

  /** Every admitted report finds its place, within both limits. */
  lemma EnqueuedWithin(queue: seq<Report>, report: Report)
    requires |report.payload| <= MAX_REPORT_PAYLOAD_BYTES
    ensures Within(Enqueued(queue, report))
  {
    var rest := queue[Drops(queue, |report.payload|)..];
    DropsUntilRoom(queue, |report.payload|);
    BytesConcat(rest, [report]);
    BytesOfOne(report);
  }

  lemma DropOne(queue: seq<Report>, size: nat)
    ensures HasRoom(queue, size) ==> Drops(queue, size) == 0
    ensures !HasRoom(queue, size) ==> queue != [] && Drops(queue, size) == 1 + Drops(queue[1..], size)
    ensures queue != [] ==>
      BytesIn(queue) == |queue[0].payload| + BytesIn(queue[1..]) && BytesIn(queue) >= |queue[0].payload|
  {
  }

  lemma CountOne(start: uint32, count: nat)
    ensures ((start + count) % 0x1_0000_0000 + 1) % 0x1_0000_0000 == (start + (count + 1)) % 0x1_0000_0000
  {
  }

  lemma BytesOfOne(report: Report)
    ensures BytesIn([report]) == |report.payload|
  {
    assert [report][1..] == [];
  }

  // ---------- runs ----------

  /** A notification (queued when it belongs to an input report), a dequeue, or a reset. */
  datatype Op = Notify(source: Source, payload: Buffer, isInput: bool) | Take | Reset

  /** A report that left the queue, and whether it was dropped or processed. */
  datatype Departure = Departure(report: Report, dropped: bool)

  /** The queue together with the history since the last reset. */
  datatype State = State(queue: seq<Report>, nextSeqId: nat, accepted: seq<Report>, departed: seq<Departure>)

  const INITIAL := State([], 1, [], [])

  function Departures(reports: seq<Report>, dropped: bool): (d: seq<Departure>)
    ensures |d| == |reports|
  {
    seq(|reports|, i requires 0 <= i < |reports| => Departure(reports[i], dropped))
  }

  function Step(s: State, op: Op): State {
    match op
    case Notify(source, payload, isInput) =>
      var next := s.(nextSeqId := s.nextSeqId + 1);
      if !isInput || Admitted(payload).None? then next
      else
        var report := Report(source, Admitted(payload).value, s.nextSeqId);
        var k := Drops(s.queue, |report.payload|);
        next.(queue := Enqueued(s.queue, report), accepted := s.accepted + [report],
              departed := s.departed + Departures(s.queue[..k], true))
    case Take =>
      if s.queue == [] then s
      else s.(queue := s.queue[1..], departed := s.departed + Departures(s.queue[..1], false))
    case Reset => State([], s.nextSeqId, [], [])
  }

  function Run(ops: seq<Op>, n: nat): State
    requires n <= |ops|
  {
    if n == 0 then INITIAL else Step(Run(ops, n - 1), ops[n - 1])
  }

  function Reports(departed: seq<Departure>): (reports: seq<Report>)
    ensures |reports| == |departed|
  {
    seq(|departed|, i requires 0 <= i < |departed| => departed[i].report)
  }

  function CountDropped(departed: seq<Departure>, dropped: bool): nat {
    if departed == [] then 0
    else CountDropped(departed[..|departed| - 1], dropped)
         + (if departed[|departed| - 1].dropped == dropped then 1 else 0)
  }

  ghost predicate IdsAscend(reports: seq<Report>, bound: nat) {
    && (forall i | 0 <= i < |reports| :: reports[i].seqId < bound)
    && forall i, j | 0 <= i < j < |reports| :: reports[i].seqId < reports[j].seqId
  }

  ghost predicate Conserved(s: State) {
    && Within(s.queue)
    && s.accepted == Reports(s.departed) + s.queue
    && IdsAscend(s.accepted, s.nextSeqId)
  }

  lemma ReportsConcat(departed: seq<Departure>, reports: seq<Report>, dropped: bool)
    ensures Reports(departed + Departures(reports, dropped)) == Reports(departed) + reports
  {
  }

  lemma NotifyConserves(s: State, source: Source, payload: Buffer, isInput: bool)
    requires Conserved(s)
    ensures Conserved(Step(s, Notify(source, payload, isInput)))
  {
    hide BytesIn, Within, Reports, Departures, Drops;
    if isInput && Admitted(payload).Some? {
      var report := Report(source, Admitted(payload).value, s.nextSeqId);
      var k := Drops(s.queue, |report.payload|);
      EnqueuedWithin(s.queue, report);
      ReportsConcat(s.departed, s.queue[..k], true);
      Rearranged(Reports(s.departed), s.queue, k, report);
      assert Step(s, Notify(source, payload, isInput)).accepted == s.accepted + [report];
    }
  }

  lemma Rearranged(departed: seq<Report>, queue: seq<Report>, k: nat, report: Report)
    requires k <= |queue|
    ensures (departed + queue) + [report] == (departed + queue[..k]) + (queue[k..] + [report])
  {
    assert queue == queue[..k] + queue[k..];
  }

  lemma TakeConserves(s: State)
    requires Conserved(s) && s.queue != []
    ensures Conserved(Step(s, Take))
  {
    hide Reports, Departures;
    ReportsConcat(s.departed, s.queue[..1], false);
    assert s.queue == s.queue[..1] + s.queue[1..];
  }

  /** An input notification of at most 512 bytes; no data is a payload only when it has no length. */
  predicate Qualifies(op: Op) {
    op.Notify? && op.isInput
      && match op.payload case Null(length) => length == 0 case Bytes(bytes) => |bytes| <= 512
  }

  function Notifications(ops: seq<Op>, n: nat): nat
    requires n <= |ops|
  {
    if n == 0 then 0 else Notifications(ops, n - 1) + if ops[n - 1].Notify? then 1 else 0
  }

  /** The input notifications that qualify since the last reset, numbered among all notifications. */
  function Qualified(ops: seq<Op>, n: nat): seq<Report>
    requires n <= |ops|
  {
    if n == 0 || ops[n - 1].Reset? then []
    else
      Qualified(ops, n - 1)
        + (if !Qualifies(ops[n - 1]) then []
           else
             var payload := if ops[n - 1].payload.Null? then [] else ops[n - 1].payload.bytes;
             [Report(ops[n - 1].source, payload, 1 + Notifications(ops, n - 1))])
  }

  /** Over any run, between resets: the accepted reports are exactly the notifications that qualify, and
      they are the departed reports followed by the queued ones, in order and without loss or duplication;
      ids ascend and both limits hold. */
  lemma {:induction false} RunConserves(ops: seq<Op>, n: nat)
    requires n <= |ops|
    ensures Conserved(Run(ops, n))
    ensures Run(ops, n).accepted == Qualified(ops, n) && Run(ops, n).nextSeqId == 1 + Notifications(ops, n)
  {
    hide Conserved, Drops, BytesIn, Enqueued;
    if n == 0 {
      InitialConserved();
    } else {
      RunConserves(ops, n - 1);
      var s := Run(ops, n - 1);
      match ops[n - 1] {
        case Notify(source, payload, isInput) => NotifyConserves(s, source, payload, isInput);
        case Take =>
          if s.queue != [] {
            TakeConserves(s);
          }
        case Reset => ResetConserved(s.nextSeqId);
      }
    }
  }

  // ---------- what the main loop receives ----------

  /** The reports that the first `n` operations handed to the main loop, resets included. */
  function Taken(ops: seq<Op>, n: nat): seq<Report>
    requires n <= |ops|
  {
    if n == 0 then []
    else
      var queue := Run(ops, n - 1).queue;
      Taken(ops, n - 1) + (if ops[n - 1].Take? && queue != [] then [queue[0]] else [])
  }

  lemma TakeAscends(taken: seq<Report>, s: State)
    requires IdsAscend(taken + s.queue, s.nextSeqId)
    ensures var next := Step(s, Take);
      IdsAscend((taken + if s.queue != [] then [s.queue[0]] else []) + next.queue, next.nextSeqId)
  {
    hide IdsAscend;
    if s.queue == [] {
      assert taken + [] == taken;
    } else {
      assert taken + s.queue == (taken + [s.queue[0]]) + s.queue[1..];
    }
  }

  /** Reports are handed over with ascending numbers, in front of all that are still queued: drops
      leave gaps, and a reset does not start the numbers over. */
  lemma {:induction false} TakenAscend(ops: seq<Op>, n: nat)
    requires n <= |ops|
    ensures IdsAscend(Taken(ops, n) + Run(ops, n).queue, Run(ops, n).nextSeqId)
  {
    hide Step, IdsAscend;
    if n == 0 {
      NothingTaken();
    } else {
      var taken, s := Taken(ops, n - 1), Run(ops, n - 1);
      TakenAscend(ops, n - 1);
      assert taken + [] == taken;
      match ops[n - 1] {
        case Notify(source, payload, isInput) => QueuedBehind(taken, s, source, payload, isInput);
        case Take => TakeAscends(taken, s);
        case Reset => FrontAscends(taken, s);
      }
    }
  }

  lemma NothingTaken()
    ensures IdsAscend([] + [], 1)
  {
  }

  lemma FrontAscends(a: seq<Report>, s: State)
    requires IdsAscend(a + s.queue, s.nextSeqId)
    ensures var next := Step(s, Reset); IdsAscend(a + next.queue, next.nextSeqId)
  {
    assert a + [] == (a + s.queue)[..|a|];
  }

  lemma SuffixAscends(a: seq<Report>, b: seq<Report>, k: nat, bound: nat)
    requires k <= |a| && IdsAscend(a + b, bound)
    ensures IdsAscend(a[k..], bound)
  {
    forall i | 0 <= i < |a[k..]|
      ensures a[k..][i] == (a + b)[k + i]
    {
    }
    forall i, j | 0 <= i < j < |a[k..]|
      ensures a[k..][i].seqId < a[k..][j].seqId
    {
      assert (a + b)[k + i].seqId < (a + b)[k + j].seqId;
    }
  }

  lemma QueuedBehind(taken: seq<Report>, s: State, source: Source, payload: Buffer, isInput: bool)
    requires IdsAscend(taken + s.queue, s.nextSeqId)
    ensures var next := Step(s, Notify(source, payload, isInput)); IdsAscend(taken + next.queue, next.nextSeqId)
  {
    hide Drops, Admitted;
    if isInput && Admitted(payload).Some? {
      var report := Report(source, Admitted(payload).value, s.nextSeqId);
      var k := Drops(s.queue, |report.payload|);
      DroppedAscends(taken, s.queue, k, report, s.nextSeqId);
      assert taken + (s.queue[k..] + [report]) == taken + s.queue[k..] + [report];
    }
  }

  lemma DroppedAscends(taken: seq<Report>, queue: seq<Report>, k: nat, report: Report, bound: nat)
    requires k <= |queue| && IdsAscend(taken + queue, bound) && report.seqId == bound
    ensures IdsAscend(taken + queue[k..] + [report], bound + 1)
  {
    var all, rest := taken + queue, taken + queue[k..];
    forall i | 0 <= i < |rest|
      ensures rest[i] == all[if i < |taken| then i else i + k] && rest[i].seqId < bound
    {
    }
    forall i, j | 0 <= i < j < |rest|
      ensures rest[i].seqId < rest[j].seqId
    {
      assert all[if i < |taken| then i else i + k].seqId < all[if j < |taken| then j else j + k].seqId;
    }
  }

  lemma InitialConserved()
    ensures Conserved(INITIAL)
  {
  }

  lemma ResetConserved(nextSeqId: nat)
    ensures Conserved(State([], nextSeqId, [], []))
  {
  }

  lemma {:induction false} EachDepartsOnce(departed: seq<Departure>)
    ensures |departed| == CountDropped(departed, true) + CountDropped(departed, false)
  {
    if departed != [] {
      EachDepartsOnce(departed[..|departed| - 1]);
    }
  }

  /** Accepted = processed + dropped + queued. */
  lemma AcceptedBalance(ops: seq<Op>, n: nat)
    requires n <= |ops|
    ensures var s := Run(ops, n);
      |s.accepted| == CountDropped(s.departed, false) + CountDropped(s.departed, true) + |s.queue|
  {
    RunConserves(ops, n);
    EachDepartsOnce(Run(ops, n).departed);
  }

  // ---------- the object ----------

  class PendingReports {
    var queue: seq<Report>
    var bytes: nat
    var dropped: uint32

    ghost predicate Valid()
      reads this
    {
      bytes == BytesIn(queue) && Within(queue)
    }

    constructor ()
      ensures Valid() && queue == [] && dropped == 0
    {
      queue, bytes, dropped := [], 0, 0;
    }

    /** The drop loop of `enqueue_input_report_`. */
    method MakeRoom(size: nat)
      requires bytes == BytesIn(queue)
      modifies this
      ensures bytes == BytesIn(queue) && queue == old(queue)[Drops(old(queue), size)..]
      ensures dropped == (old(dropped) + Drops(old(queue), size)) % 0x1_0000_0000
    {
      hide Drops, BytesIn;
      ghost var count := 0;
      ghost var start, queued := dropped, queue;
      while queue != [] && (|queue| >= MAX_PENDING_REPORTS || bytes + size > MAX_PENDING_REPORT_BYTES)
        invariant count <= |queued| && queue == queued[count..] && bytes == BytesIn(queue)
        invariant Drops(queued, size) == count + Drops(queue, size)
        invariant dropped == (start + count) % 0x1_0000_0000
        decreases |queue|
      {
        DropOne(queue, size);
        CountOne(start, count);
        assert queued[count..][1..] == queued[count + 1..];
        dropped := (dropped + 1) % 0x1_0000_0000;
        bytes := bytes - |queue[0].payload|;
        queue := queue[1..];
        count := count + 1;
      }
      DropOne(queue, size);
    }

    /** `enqueue_input_report_`. */
    method Enqueue(source: Source, payload: Buffer, seqId: nat)
      requires Valid()
      modifies this
      ensures Valid()
      ensures Admitted(payload).None? ==> queue == old(queue) && dropped == old(dropped)
      ensures Admitted(payload).Some? ==>
        var report := Report(source, Admitted(payload).value, seqId);
        && queue == Enqueued(old(queue), report)
        && dropped == (old(dropped) + Drops(old(queue), |report.payload|)) % 0x1_0000_0000
    {
      if payload.Null? && payload.length != 0 {
        return;
      }
      var value := if payload.Null? then [] else payload.bytes;
      if |value| > MAX_REPORT_PAYLOAD_BYTES {
        return;
      }
      hide BytesIn, Drops;
      MakeRoom(|value|);
      var report := Report(source, value, seqId);
      EnqueuedWithin(old(queue), report);
      BytesConcat(queue, [report]);
      BytesOfOne(report);
      bytes := bytes + |value|;
      queue := queue + [report];
    }

    /** The dequeue in `loop`. */
    method Dequeue() returns (report: Report)
      requires Valid() && queue != []
      modifies this`queue, this`bytes
      ensures Valid() && report == old(queue)[0] && queue == old(queue)[1..]
    {
      report := queue[0];
      queue := queue[1..];
      bytes := bytes - |report.payload|;
    }

    method Clear()
      modifies this`queue, this`bytes
      ensures Valid() && queue == []
    {
      queue, bytes := [], 0;
    }
  }
}
