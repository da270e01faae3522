/** Boot keyboards and mice end to end: what the component emits for a button, modifier or key of a
    characteristic is what the bytes of its reports say, whatever else it receives in between. */
module DeliveredBoot {
  import opened Integers
  import opened HidDecoder
  import HidReplay
  import B = BootDecoder
  import Q = ReportQueue
  import Streams
  import opened EventBuffer
  import C = Coalescing
  import R = CoalescingRefinement
  import opened EndToEnd

  /** The reports that reach the boot decoder, among the first `n` activities. */
  function BootDeliveries(run: seq<Activity>, n: nat): seq<HidReplay.Delivery>
    requires n <= |run|
  {
    if n == 0 then []
    else
      BootDeliveries(run, n - 1)
        + (match run[n - 1]
           case Idle => []
           case Dequeued(report) =>
             if IsBoot(report.source) then [HidReplay.Delivery(report.source, Bytes(report.payload))] else [])
  }

  lemma {:induction false} BootInPrefix(a: seq<HidReplay.Delivery>, b: seq<HidReplay.Delivery>, handle: uint16, n: nat)
    requires n <= |a|
    ensures B.RunState(a + b, n) == B.RunState(a, n) && B.HandleEvents(a + b, handle, n) == B.HandleEvents(a, handle, n)
  {
    hide B.DecodeState, B.DecodeEvents;
    if n > 0 {
      BootInPrefix(a, b, handle, n - 1);
    }
  }

  /** One more delivery. */
  lemma BootAppend(a: seq<HidReplay.Delivery>, d: HidReplay.Delivery, handle: uint16)
    ensures var s := B.RunState(a, |a|);
      && B.RunState(a + [d], |a| + 1) == B.DecodeState(s, d.source, d.payload)
      && B.HandleEvents(a + [d], handle, |a| + 1)
         == (if d.source.handle == handle then B.HandleEvents(a, handle, |a|) + B.DecodeEvents(s, d.source, d.payload)
             else B.HandleEvents(a, handle, |a|))
  {
    hide B.DecodeState, B.DecodeEvents;
    BootInPrefix(a, [d], handle, |a|);
  }

  lemma BootStep(maps: Maps, d: Decoders, report: Q.Report)
    requires MapsOk(maps)
    ensures var decoded, source := DecodeReport(maps, d, report), report.source;
      && decoded.next.boot == (if IsBoot(source) then B.DecodeState(d.boot, source, Bytes(report.payload)) else d.boot)
      && (IsBoot(source) ==> decoded.values == B.DecodeEvents(d.boot, source, Bytes(report.payload)))
  {
    hide B.DecodeState, B.DecodeEvents, ParseEvents, ParseRuntime, RouteOf, B.BootRouteOf, MapsOk;
  }

  /** The boot decoder sees exactly the boot reports, whatever else is received. */
  lemma {:induction false} BootFollows(maps: Maps, run: seq<Activity>, n: nat)
    requires MapsOk(maps) && n <= |run|
    ensures DecodersAfter(maps, run, n).boot == B.RunState(BootDeliveries(run, n), |BootDeliveries(run, n)|)
  {
    hide DecodeReport, B.DecodeState, MapsOk, IsBoot;
    if n > 0 {
      BootFollows(maps, run, n - 1);
      var ds := BootDeliveries(run, n - 1);
      match run[n - 1] {
        case Idle => assert ds + [] == ds;
        case Dequeued(report) =>
          BootStep(maps, DecodersAfter(maps, run, n - 1), report);
          BootAppend(ds, HidReplay.Delivery(report.source, Bytes(report.payload)), 0);
          assert ds + [] == ds;
      }
    }
  }

  /** A barrier event of the characteristic that speaks about the signal. */
  predicate SpeaksAbout(e: HidEvent, handle: uint16, signal: B.Signal)
    requires signal.Legal()
  {
    e.IsBarrier() && e.item.Some? && IsBoot(e.source) && e.source.handle == handle && signal.Labels(e.item.value)
  }

  /** The values that the first `n` events carry for a signal. */
  function SignalValues(events: seq<HidEvent>, handle: uint16, signal: B.Signal, n: nat): seq<int>
    requires n <= |events| && signal.Legal()
  {
    if n == 0 then []
    else
      SignalValues(events, handle, signal, n - 1)
        + (if SpeaksAbout(events[n - 1], handle, signal) then [events[n - 1].item.value.value] else [])
  }

  lemma {:induction false} SignalInPrefix(a: seq<HidEvent>, b: seq<HidEvent>, handle: uint16, signal: B.Signal, n: nat)
    requires n <= |a| && signal.Legal()
    ensures SignalValues(a + b, handle, signal, n) == SignalValues(a, handle, signal, n)
  {
    hide SpeaksAbout;
    if n > 0 {
      SignalInPrefix(a, b, handle, signal, n - 1);
    }
  }

  lemma {:induction false} SignalConcat(a: seq<HidEvent>, b: seq<HidEvent>, handle: uint16, signal: B.Signal, n: nat)
    requires n <= |b| && signal.Legal()
    ensures SignalValues(a + b, handle, signal, |a| + n)
      == SignalValues(a, handle, signal, |a|) + SignalValues(b, handle, signal, n)
  {
    hide SpeaksAbout;
    if n == 0 {
      SignalInPrefix(a, b, handle, signal, |a|);
      assert SignalValues(a, handle, signal, |a|) + [] == SignalValues(a, handle, signal, |a|);
    } else {
      SignalConcat(a, b, handle, signal, n - 1);
      assert (a + b)[|a| + n - 1] == b[n - 1];
    }
  }

  /** Only barriers count, so dropping everything else changes nothing. */
  lemma {:induction false} SignalInBarriers(events: seq<HidEvent>, handle: uint16, signal: B.Signal, n: nat)
    requires n <= |events| && signal.Legal()
    ensures var barriers := R.Barriers(events, n);
      SignalValues(barriers, handle, signal, |barriers|) == SignalValues(events, handle, signal, n)
  {
    if n > 0 {
      SignalInBarriers(events, handle, signal, n - 1);
      var before, e := R.Barriers(events, n - 1), events[n - 1];
      OneSignal(e, handle, signal);
      if e.IsBarrier() {
        SignalConcat(before, [e], handle, signal, 1);
        assert R.Barriers(events, n) == before + [e];
      } else {
        assert R.Barriers(events, n) == before;
      }
    }
  }

  lemma OneSignal(e: HidEvent, handle: uint16, signal: B.Signal)
    requires signal.Legal()
    ensures SignalValues([e], handle, signal, 1)
      == if SpeaksAbout(e, handle, signal) then [e.item.value.value] else []
  {
    hide SpeaksAbout;
    assert SignalValues([e], handle, signal, 0) == [];
  }

  /** A boot value for a button, modifier or key is never merged. */
  lemma KeyIsBarrier(v: Value, signal: B.Signal)
    requires signal.Legal() && !signal.IsAxis() && signal.Labels(v) && exists other :: B.Speaks(other, v)
    ensures v.aggregation == Passthrough
  {
  }

  lemma EventSpeaks(report: Q.Report, v: Value, status: Status, handle: uint16, signal: B.Signal)
    requires signal.Legal() && !signal.IsAxis()
    requires IsBoot(report.source) ==> exists other :: B.Speaks(other, v)
    ensures SpeaksAbout(EventOf(report, Some(v), status), handle, signal)
      <==> IsBoot(report.source) && report.source.handle == handle && signal.Labels(v)
  {
    hide B.Signal.Labels;
    if IsBoot(report.source) && signal.Labels(v) {
      KeyIsBarrier(v, signal);
    }
  }

  lemma {:induction false} SignalOfReport(report: Q.Report, values: seq<Value>, status: Status, handle: uint16,
                                          signal: B.Signal, n: nat)
    requires n <= |values| && signal.Legal() && !signal.IsAxis() && (IsBoot(report.source) ==> B.AllSpeak(values))
    ensures SignalValues(EventsFor(report, values, status), handle, signal, n)
      == if IsBoot(report.source) && report.source.handle == handle then B.At(values[..n], signal) else []
  {
    hide SpeaksAbout, B.Signal.Labels, EventOf, IsBoot, B.Speaks, B.At;
    if n == 0 {
      B.AtNothing(signal);
    } else {
      var v := values[n - 1];
      SignalOfReport(report, values, status, handle, signal, n - 1);
      assert v in values;
      EventSpeaks(report, v, status, handle, signal);
      AtNext(values, signal, n);
      assert EventsFor(report, values, status)[n - 1] == EventOf(report, Some(v), status);
      AmountOfEvent(report, v, status);
    }
  }

  lemma AmountOfEvent(report: Q.Report, v: Value, status: Status)
    ensures EventOf(report, Some(v), status).item == Some(v)
  {
  }

  lemma AtNext(values: seq<Value>, signal: B.Signal, n: nat)
    requires 0 < n <= |values| && signal.Legal()
    ensures B.At(values[..n], signal)
      == if signal.Labels(values[n - 1]) then B.At(values[..n - 1], signal) + [values[n - 1].value]
         else B.At(values[..n - 1], signal)
  {
    hide B.Signal.Labels;
    assert values[..n][..n - 1] == values[..n - 1];
    assert B.At(values[..n - 1], signal) + [] == B.At(values[..n - 1], signal);
  }

  /** What one report contributes to the plain stream for a signal. */
  lemma SignalOfPlain(maps: Maps, d: Decoders, report: Q.Report, handle: uint16, signal: B.Signal)
    requires MapsOk(maps) && signal.Legal() && !signal.IsAxis()
    ensures var plain := C.PlainOf(InputFor(report, DecodeReport(maps, d, report)));
      SignalValues(plain, handle, signal, |plain|)
        == if IsBoot(report.source) && report.source.handle == handle
           then B.At(B.DecodeEvents(d.boot, report.source, Bytes(report.payload)), signal) else []
  {
    hide DecodeReport, B.DecodeEvents, B.At, B.AllSpeak, MapsOk, IsBoot, SpeaksAbout, EventOf;
    var decoded := DecodeReport(maps, d, report);
    var values := decoded.values;
    BootStep(maps, d, report);
    B.BootValuesSpeak(d.boot, report.source, Bytes(report.payload));
    SignalOfReport(report, values, decoded.status, handle, signal, |values|);
    assert values[..|values|] == values;
    if values == [] && !decoded.recognized {
      EnvelopeIsSilent(report, decoded.status, handle, signal);
    }
  }

  lemma EnvelopeIsSilent(report: Q.Report, status: Status, handle: uint16, signal: B.Signal)
    requires signal.Legal()
    ensures SignalValues([EventOf(report, None, status)], handle, signal, 1) == []
  {
    OneSignal(EventOf(report, None, status), handle, signal);
  }

  /** The plain stream of the whole component for a signal is that of the boot decoder alone. */
  lemma {:induction false} BootStreamFollows(maps: Maps, run: seq<Activity>, n: nat, handle: uint16, signal: B.Signal)
    requires MapsOk(maps) && n <= |run| && signal.Legal() && !signal.IsAxis()
    ensures var plain, ds := C.Plain(Inputs(maps, run), n), BootDeliveries(run, n);
      SignalValues(plain, handle, signal, |plain|) == B.At(B.HandleEvents(ds, handle, |ds|), signal)
  {
    hide DecodeReport, InputFor, C.PlainOf, SignalValues, B.HandleEvents, B.RunState, B.At, B.DecodeEvents,
      B.DecodeState, MapsOk, IsBoot, DecodersAfter;
    if n == 0 {
      NothingSignalled(handle, signal);
    } else {
      var plain, ds := C.Plain(Inputs(maps, run), n - 1), BootDeliveries(run, n - 1);
      var more := C.PlainOf(InputAt(maps, run, n - 1));
      BootStreamFollows(maps, run, n - 1, handle, signal);
      SignalConcat(plain, more, handle, signal, |more|);
      match run[n - 1] {
        case Idle =>
          IdleSignalsNothing(handle, signal);
          assert ds + [] == ds;
        case Dequeued(report) =>
          var delivery := HidReplay.Delivery(report.source, Bytes(report.payload));
          SignalOfPlain(maps, DecodersAfter(maps, run, n - 1), report, handle, signal);
          BootFollows(maps, run, n - 1);
          BootAppend(ds, delivery, handle);
          B.AtConcat(B.HandleEvents(ds, handle, |ds|),
                     B.DecodeEvents(B.RunState(ds, |ds|), report.source, Bytes(report.payload)), signal);
          assert ds + [] == ds;
      }
      assert SignalValues(plain, handle, signal, |plain|) + [] == SignalValues(plain, handle, signal, |plain|);
    }
  }

  lemma NothingSignalled(handle: uint16, signal: B.Signal)
    requires signal.Legal()
    ensures SignalValues([], handle, signal, 0) == B.At(B.HandleEvents([], handle, 0), signal)
  {
  }

  lemma IdleSignalsNothing(handle: uint16, signal: B.Signal)
    requires signal.Legal()
    ensures C.PlainOf(C.Tick) == [] && SignalValues([], handle, signal, 0) == []
  {
  }

  /** Buttons, modifiers and keys of a boot characteristic: emitted are exactly the changes of what the bytes
      of its own reports say, at any sampling interval and among any other traffic. */
  lemma KeysDelivered(maps: Maps, run: seq<Activity>, clock: nat -> nat, interval: uint32, handle: uint16,
                      signal: B.Signal)
    requires MapsOk(maps) && signal.Legal() && !signal.IsAxis()
    ensures var p, ds := C.Run(clock, interval, Inputs(maps, run), |run|), BootDeliveries(run, |run|);
      SignalValues(R.EventsOf(p.emitted), handle, signal, |p.emitted|)
        == Streams.Changes(0, B.Samples(ds, handle, signal, |ds|))
  {
    hide MapsOk, C.Run, C.Plain, BootDeliveries, SignalValues, B.At, B.HandleEvents, B.Samples, R.Barriers,
      Streams.Changes;
    var p, plain, ds := C.Run(clock, interval, Inputs(maps, run), |run|), C.Plain(Inputs(maps, run), |run|),
      BootDeliveries(run, |run|);
    R.BarriersKept(clock, interval, Inputs(maps, run), |run|);
    SignalInBarriers(R.EventsOf(p.emitted), handle, signal, |p.emitted|);
    SignalInBarriers(plain, handle, signal, |plain|);
    BootStreamFollows(maps, run, |run|, handle, signal);
    B.SignalReplay(ds, handle, signal, |ds|);
  }
}
