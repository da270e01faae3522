/** What a key amounts to along the plain stream of the component, at its end and in front of every
    barrier, in terms of the values that the stream carries under the key. */
module KeyTotals {
  import opened Integers
  import Streams
  import opened HidDecoder
  import opened HidReplay
  import opened EventBuffer
  import C = Coalescing
  import R = CoalescingRefinement
  import opened EndToEnd
  import opened KeyStreams

  // ---------- items, totals and projections ----------

  ghost predicate Uniform(items: seq<Value>, aggregation: Aggregation) {
    forall i | 0 <= i < |items| :: items[i].aggregation == aggregation
  }

  lemma UniformInit(items: seq<Value>, more: seq<Value>, aggregation: Aggregation)
    requires Uniform(items + more, aggregation)
    ensures Uniform(items, aggregation) && Uniform(more, aggregation)
  {
    forall i | 0 <= i < |items|
      ensures items[i].aggregation == aggregation
    {
      assert (items + more)[i] == items[i];
    }
    forall i | 0 <= i < |more|
      ensures more[i].aggregation == aggregation
    {
      assert (items + more)[|items| + i] == more[i];
    }
  }

  lemma ValuesConcat(a: seq<Value>, b: seq<Value>)
    ensures ValuesOf(a + b) == ValuesOf(a) + ValuesOf(b)
  {
  }

  /** A key's total is the sum of its values, its latest value the last of them. */
  lemma {:induction false} TotalIsSum(events: seq<HidEvent>, key: Key, aggregation: Aggregation, n: nat)
    requires n <= |events| && Uniform(ItemsAt(events, key, n), aggregation) && aggregation != Passthrough
    ensures R.Total(events, key, n) == Streams.Sum(ValuesOf(ItemsAt(events, key, n)))
    ensures R.Latest(events, key, n)
      == (var items := ItemsAt(events, key, n); if items == [] then None else Some(items[|items| - 1].value))
  {
    hide KeyOf, Uniform, ItemsAt;
    if n == 0 {
      NoItems(events, key);
    } else {
      var e, before := events[n - 1], ItemsAt(events, key, n - 1);
      ItemsStep(events, key, n - 1);
      var last := if e.item.Some? && KeyOf(e) == key then [e.item.value] else [];
      UniformInit(before, last, aggregation);
      TotalIsSum(events, key, aggregation, n - 1);
      ValuesConcat(before, last);
      Streams.SumAppend(ValuesOf(before), ValuesOf(last));
      OneItem(e, key, aggregation, last);
    }
  }

  lemma NoItems(events: seq<HidEvent>, key: Key)
    ensures ItemsAt(events, key, 0) == [] && Streams.Sum(ValuesOf([])) == 0
  {
  }

  lemma OneItem(e: HidEvent, key: Key, aggregation: Aggregation, last: seq<Value>)
    requires last == (if e.item.Some? && KeyOf(e) == key then [e.item.value] else [])
    requires Uniform(last, aggregation) && aggregation != Passthrough
    ensures Streams.Sum(ValuesOf(last)) == (if !e.IsBarrier() && KeyOf(e) == key then e.Amount() else 0)
    ensures last != [] <==> !e.IsBarrier() && KeyOf(e) == key
    ensures last != [] ==> last[0].value == e.Amount()
  {
    if last != [] {
      assert last[0].aggregation == aggregation;
      assert ValuesOf(last) == [last[0].value];
      assert [last[0].value][..0] == [];
      assert Streams.Sum([last[0].value]) == last[0].value;
    }
  }

  /** Looking at one key keeps its items; they decide what the projection contains. */
  lemma {:induction false} ProjectedItems(events: seq<HidEvent>, key: Key, n: nat)
    requires n <= |events|
    ensures var seen := R.Project(events[..n], key);
      && ItemsAt(seen, key, |seen|) == ItemsAt(events, key, n)
      && forall aggregation | Uniform(ItemsAt(events, key, n), aggregation) :: R.OnlyKey(seen, key, aggregation)
  {
    hide KeyOf, ItemsAt, Uniform;
    if n == 0 {
      NoItems(events, key);
      NoItems(R.Project(events[..0], key), key);
    } else {
      var e, before := events[n - 1], R.Project(events[..n - 1], key);
      ProjectedItems(events, key, n - 1);
      assert events[..n][..n - 1] == events[..n - 1];
      ItemsStep(events, key, n - 1);
      if R.Relevant(e, key) {
        ItemsConcat(before, [e], key, 1);
        NoItems([e], key);
        ItemsStep([e], key, 0);
        forall aggregation | Uniform(ItemsAt(events, key, n), aggregation)
          ensures R.OnlyKey(before + [e], key, aggregation)
        {
          UniformInit(ItemsAt(events, key, n - 1),
                      if e.item.Some? && KeyOf(e) == key then [e.item.value] else [], aggregation);
          OneUniform(e, key, aggregation);
        }
      } else {
        assert before + [] == before;
        forall aggregation | Uniform(ItemsAt(events, key, n), aggregation)
          ensures R.OnlyKey(before, key, aggregation)
        {
          UniformInit(ItemsAt(events, key, n - 1), [], aggregation);
        }
      }
    }
  }

  lemma OneUniform(e: HidEvent, key: Key, aggregation: Aggregation)
    requires e.item.Some? && KeyOf(e) == key ==> Uniform([e.item.value], aggregation)
    ensures e.item.Some? && KeyOf(e) == key ==> e.item.value.aggregation == aggregation
  {
    if e.item.Some? && KeyOf(e) == key {
      assert [e.item.value][0].aggregation == aggregation;
    }
  }

  lemma {:induction false} ItemsPrefix(events: seq<HidEvent>, key: Key, m: nat, n: nat)
    requires m <= n <= |events|
    ensures ItemsAt(events, key, m) <= ItemsAt(events, key, n)
    decreases n
  {
    hide KeyOf;
    if m < n {
      ItemsPrefix(events, key, m, n - 1);
    }
  }

  // ---------- barriers ----------

  /** What a key that carries `values` amounts to: their sum, or the last of them. */
  function Amount(values: seq<int>, aggregation: Aggregation): Option<int> {
    if aggregation == Aggregation.Sum then Some(Streams.Sum(values))
    else if values == [] then None
    else Some(values[|values| - 1])
  }

  /** The barriers of one report: behind the report's own value under the key, the key amounts to
      `after`, and in front of it to `before`. */
  function ReportMarks(events: seq<HidEvent>, key: Key, before: Option<int>, after: Option<int>, n: nat): seq<R.Mark>
    requires n <= |events|
  {
    if n == 0 then []
    else
      ReportMarks(events, key, before, after, n - 1)
        + (if events[n - 1].IsBarrier()
           then [R.Mark(events[n - 1], if ItemsAt(events, key, n - 1) == [] then before else after)] else [])
  }

  /** The barriers of the first `n` activities; `amounts[m]` is what the key amounts to behind the
      first `m` of them. */
  function MarksAlong(maps: Maps, run: seq<Activity>, n: nat, key: Key, amounts: seq<Option<int>>): seq<R.Mark>
    requires MapsOk(maps) && n <= |run| && n < |amounts|
  {
    if n == 0 then []
    else
      var events := C.PlainOf(InputAt(maps, run, n - 1));
      MarksAlong(maps, run, n - 1, key, amounts) + ReportMarks(events, key, amounts[n - 1], amounts[n], |events|)
  }

  lemma UniformPrefix(a: seq<Value>, b: seq<Value>, aggregation: Aggregation)
    requires a <= b && Uniform(b, aggregation)
    ensures Uniform(a, aggregation)
  {
    assert b == a + b[|a|..];
    UniformInit(a, b[|a|..], aggregation);
  }

  lemma AmountAt(events: seq<HidEvent>, key: Key, aggregation: Aggregation, n: nat)
    requires n <= |events| && Uniform(ItemsAt(events, key, |events|), aggregation) && aggregation != Passthrough
    ensures var amount := Amount(ValuesOf(ItemsAt(events, key, n)), aggregation);
      && (aggregation == Aggregation.Sum ==> amount == Some(R.Total(events, key, n)))
      && (aggregation == Aggregation.Latest ==> amount == R.Latest(events, key, n))
  {
    hide ItemsAt, R.Total, R.Latest, Uniform, Streams.Sum;
    ItemsPrefix(events, key, n, |events|);
    UniformPrefix(ItemsAt(events, key, n), ItemsAt(events, key, |events|), aggregation);
    TotalIsSum(events, key, aggregation, n);
  }

  /** The marks of a stream, for keys of either kind. */
  function MarksOf(events: seq<HidEvent>, key: Key, aggregation: Aggregation, n: nat): seq<R.Mark>
    requires n <= |events|
  {
    if aggregation == Aggregation.Sum then R.TotalMarks(events, key, n) else R.LatestMarks(events, key, n)
  }

  lemma MarksOfNext(events: seq<HidEvent>, key: Key, aggregation: Aggregation, n: nat)
    requires n < |events| && Uniform(ItemsAt(events, key, |events|), aggregation) && aggregation != Passthrough
    ensures MarksOf(events, key, aggregation, n + 1)
      == MarksOf(events, key, aggregation, n)
           + (if events[n].IsBarrier()
              then [R.Mark(events[n], Amount(ValuesOf(ItemsAt(events, key, n)), aggregation))] else [])
  {
    hide ItemsAt, R.Total, R.Latest, R.TotalMarks, R.LatestMarks, Uniform, Amount, KeyOf;
    R.MarksNext(events, key, n);
    AmountAt(events, key, aggregation, n);
  }

  /** One more report behind a plain stream, with at most one value under the key. */
  lemma {:induction false} MarksBehind(plain: seq<HidEvent>, more: seq<HidEvent>, key: Key, aggregation: Aggregation,
                                       n: nat)
    requires n <= |more| && |ItemsAt(more, key, |more|)| <= 1 && aggregation != Passthrough
    requires Uniform(ItemsAt(plain + more, key, |plain + more|), aggregation)
    ensures var before := Amount(ValuesOf(ItemsAt(plain, key, |plain|)), aggregation);
      var after := Amount(ValuesOf(ItemsAt(plain + more, key, |plain + more|)), aggregation);
      MarksOf(plain + more, key, aggregation, |plain| + n)
        == MarksOf(plain, key, aggregation, |plain|) + ReportMarks(more, key, before, after, n)
  {
    hide ItemsAt, R.Total, R.Latest, R.TotalMarks, R.LatestMarks, Uniform, Amount, KeyOf;
    if n == 0 {
      R.MarksInPrefix(plain, more, key, |plain|);
      assert MarksOf(plain, key, aggregation, |plain|) + [] == MarksOf(plain, key, aggregation, |plain|);
    } else {
      hide MarksOf;
      MarksBehind(plain, more, key, aggregation, n - 1);
      MarksOfNext(plain + more, key, aggregation, |plain| + n - 1);
      assert (plain + more)[|plain| + n - 1] == more[n - 1];
      ItemsConcat(plain, more, key, n - 1);
      ItemsConcat(plain, more, key, |more|);
      ItemsPrefix(more, key, n - 1, |more|);
      EmptyOrAll(ItemsAt(more, key, n - 1), ItemsAt(more, key, |more|));
      assert ItemsAt(plain, key, |plain|) + [] == ItemsAt(plain, key, |plain|);
    }
  }

  lemma EmptyOrAll(a: seq<Value>, b: seq<Value>)
    requires a <= b && |b| <= 1
    ensures a == [] || a == b
  {
  }

  /** What the plain stream carries under a key behind the first `n` activities. */
  function CarriedBy(maps: Maps, run: seq<Activity>, n: nat, key: Key): seq<Value>
    requires MapsOk(maps) && n <= |run|
  {
    var plain := C.Plain(Inputs(maps, run), n);
    ItemsAt(plain, key, |plain|)
  }

  /** The key's values behind each activity, with at most one more value an activity. */
  ghost predicate Stepwise(maps: Maps, run: seq<Activity>, n: nat, key: Key, amounts: seq<Option<int>>,
                           aggregation: Aggregation)
    requires MapsOk(maps) && n <= |run| && n < |amounts|
  {
    && (forall m | 0 <= m <= n :: amounts[m] == Amount(ValuesOf(CarriedBy(maps, run, m, key)), aggregation))
    && (forall m | 0 <= m < n :: |CarriedBy(maps, run, m + 1, key)| <= |CarriedBy(maps, run, m, key)| + 1)
    && (forall m | 0 <= m <= n :: Uniform(CarriedBy(maps, run, m, key), aggregation))
  }

  lemma StepwiseLast(maps: Maps, run: seq<Activity>, n: nat, key: Key, amounts: seq<Option<int>>,
                     aggregation: Aggregation)
    requires MapsOk(maps) && 0 < n <= |run| && n < |amounts| && Stepwise(maps, run, n, key, amounts, aggregation)
    ensures Stepwise(maps, run, n - 1, key, amounts, aggregation)
    ensures amounts[n - 1] == Amount(ValuesOf(CarriedBy(maps, run, n - 1, key)), aggregation)
    ensures amounts[n] == Amount(ValuesOf(CarriedBy(maps, run, n, key)), aggregation)
    ensures |CarriedBy(maps, run, n, key)| <= |CarriedBy(maps, run, n - 1, key)| + 1
    ensures Uniform(CarriedBy(maps, run, n, key), aggregation)
  {
    hide CarriedBy, Amount, Uniform;
    assert |CarriedBy(maps, run, n - 1 + 1, key)| <= |CarriedBy(maps, run, n - 1, key)| + 1;
  }

  lemma PlainStep(maps: Maps, run: seq<Activity>, n: nat, key: Key)
    requires MapsOk(maps) && 0 < n <= |run|
    ensures var plain, more := C.Plain(Inputs(maps, run), n - 1), C.PlainOf(InputAt(maps, run, n - 1));
      && C.Plain(Inputs(maps, run), n) == plain + more
      && CarriedBy(maps, run, n, key) == CarriedBy(maps, run, n - 1, key) + ItemsAt(more, key, |more|)
  {
    hide InputAt, C.PlainOf, ItemsAt, MapsOk;
    var plain, more := C.Plain(Inputs(maps, run), n - 1), C.PlainOf(InputAt(maps, run, n - 1));
    ItemsConcat(plain, more, key, |more|);
  }

  /** In front of every barrier of the plain stream a key amounts to what its values so far do. */
  lemma {:induction false} MarksFollow(maps: Maps, run: seq<Activity>, n: nat, key: Key, amounts: seq<Option<int>>,
                                       aggregation: Aggregation)
    requires MapsOk(maps) && n <= |run| && n < |amounts| && aggregation != Passthrough
    requires Stepwise(maps, run, n, key, amounts, aggregation)
    ensures var plain := C.Plain(Inputs(maps, run), n);
      MarksOf(plain, key, aggregation, |plain|) == MarksAlong(maps, run, n, key, amounts)
  {
    hide MapsOk, InputAt, C.PlainOf, ItemsAt, Amount, Uniform, Stepwise, ReportMarks, MarksOf;
    if n == 0 {
      NoMarksOf(key, aggregation);
    } else {
      var plain, more := C.Plain(Inputs(maps, run), n - 1), C.PlainOf(InputAt(maps, run, n - 1));
      StepwiseLast(maps, run, n, key, amounts, aggregation);
      MarksFollow(maps, run, n - 1, key, amounts, aggregation);
      PlainStep(maps, run, n, key);
      MarksBehind(plain, more, key, aggregation, |more|);
    }
  }

  lemma NoMarksOf(key: Key, aggregation: Aggregation)
    ensures MarksOf([], key, aggregation, 0) == []
  {
  }
}
