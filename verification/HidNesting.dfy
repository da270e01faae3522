/** The three kinds of nesting in a descriptor: Push/Pop (section 6.2.2.7 of HID 1.11),
    Collection/End Collection (6.2.2.6) and the scope of local items (6.2.2.8). */
module HidNesting {
  import opened Integers
  import opened HidItems
  import opened HidSchema
  import opened HidCompiler

  predicate HasTag(item: Item, tag: uint8) {
    item.Short? && TagOf(item.prefix) == tag
  }

  /** Items with tag `up` minus items with tag `down` among the first `k`. */
  function Level(items: seq<Item>, up: uint8, down: uint8, k: nat): int
    requires k <= |items|
  {
    if k == 0 then 0
    else Level(items, up, down, k - 1)
         + (if HasTag(items[k - 1], up) then 1 else if HasTag(items[k - 1], down) then -1 else 0)
  }

  // ---------- Push and Pop ----------

  lemma StackStep(m: Machine, item: Item)
    requires Step(m, item).Some?
    ensures var stack, stack' := m.globalStack, Step(m, item).value.globalStack;
      if HasTag(item, PUSH) then stack' == stack + [m.global]
      else if HasTag(item, POP) then stack != [] && stack' == stack[..|stack| - 1]
      else stack' == stack
  {
    hide SetGlobal, SetLocal, NewCollection, NewField, ReportIndex, DecodeSigned;
  }

  /** As long as no Pop goes below position `i`, its stack stays at the bottom. */
  lemma {:induction false} StackBelow(m: Machine, items: seq<Item>, i: nat, k: nat)
    requires i <= k <= |items| && Run(m, items, k).Some?
    requires forall j | i <= j <= k :: Level(items, PUSH, POP, j) >= Level(items, PUSH, POP, i)
    ensures Run(m, items, i).Some?
    ensures var bottom, stack := Run(m, items, i).value.globalStack, Run(m, items, k).value.globalStack;
      |stack| == |bottom| + Level(items, PUSH, POP, k) - Level(items, PUSH, POP, i) && bottom <= stack
    decreases k
  {
    hide Step;
    if i < k {
      RunLast(m, items, k);
      StackBelow(m, items, i, k - 1);
      StackStep(Run(m, items, k - 1).value, items[k - 1]);
    }
  }

  /** Between a Push and the Pop that matches it anything may be set: afterwards the whole global
      state, and the stack, are as they were in front of the Push. */
  lemma PushPopRestores(m: Machine, items: seq<Item>, i: nat, j: nat)
    requires i < j < |items| && HasTag(items[i], PUSH) && HasTag(items[j], POP)
    requires Level(items, PUSH, POP, j) == Level(items, PUSH, POP, i + 1)
    requires forall k | i < k <= j :: Level(items, PUSH, POP, k) >= Level(items, PUSH, POP, i + 1)
    requires Run(m, items, j + 1).Some?
    ensures Run(m, items, i).Some?
    ensures Run(m, items, j + 1).value.global == Run(m, items, i).value.global
    ensures Run(m, items, j + 1).value.globalStack == Run(m, items, i).value.globalStack
  {
    hide Run, Step, Level;
    RunLast(m, items, j + 1);
    StackBelow(m, items, i + 1, j);
    RunLast(m, items, i + 1);
    var before := Run(m, items, i).value;
    var inside := Run(m, items, j).value;
    StackStep(before, items[i]);
    assert inside.globalStack == before.globalStack + [before.global];
    PopStep(inside, items[j]);
  }

  lemma PopStep(m: Machine, item: Item)
    requires Step(m, item).Some? && HasTag(item, POP)
    ensures m.globalStack != []
    ensures Step(m, item).value.global == m.globalStack[|m.globalStack| - 1]
    ensures Step(m, item).value.globalStack == m.globalStack[..|m.globalStack| - 1]
  {
  }

  // ---------- Collections ----------

  predicate Opens(item: Item) { HasTag(item, COLLECTION) }

  predicate Closes(item: Item) { HasTag(item, END_COLLECTION) }

  function Depth(items: seq<Item>, k: nat): int
    requires k <= |items|
  {
    Level(items, COLLECTION, END_COLLECTION, k)
  }

  /** Number of Collection items before position `k`, which is the id of one at `k`. */
  function Opened(items: seq<Item>, k: nat): nat
    requires k <= |items|
  {
    if k == 0 then 0 else Opened(items, k - 1) + (if Opens(items[k - 1]) then 1 else 0)
  }

  /** The collection opened at `q` is still open in front of position `p`. */
  ghost predicate Encloses(items: seq<Item>, q: nat, p: nat)
    requires p <= |items|
  {
    q < p && Opens(items[q]) && forall j | q < j <= p :: Depth(items, j) > Depth(items, q)
  }

  ghost predicate Innermost(items: seq<Item>, q: nat, p: nat)
    requires p <= |items|
  {
    Encloses(items, q, p) && forall o: nat | Encloses(items, o, p) :: o <= q
  }

  /** Positions of the open collections, outermost first. */
  ghost function OpenPositions(items: seq<Item>, k: nat): seq<nat>
    requires k <= |items|
  {
    if k == 0 then []
    else
      var open := OpenPositions(items, k - 1);
      if Opens(items[k - 1]) then open + [k - 1]
      else if Closes(items[k - 1]) && open != [] then open[..|open| - 1]
      else open
  }

  ghost predicate StackMatches(items: seq<Item>, k: nat, stack: seq<uint16>)
    requires k <= |items|
  {
    var open := OpenPositions(items, k);
    && |open| == |stack| == Depth(items, k)
    && (forall i | 0 <= i < |open| :: open[i] < k && Depth(items, open[i]) == i && stack[i] == Opened(items, open[i]))
    && (forall i, j | 0 <= i < j < |open| :: open[i] < open[j])
    && (forall q: nat | q < k :: q in open <==> Encloses(items, q, k))
  }

  lemma CollectionStep(m: Machine, item: Item)
    requires Step(m, item).Some?
    ensures var stack, stack' := m.collectionStack, Step(m, item).value.collectionStack;
      var all, all' := m.schema.collections, Step(m, item).value.schema.collections;
      if Opens(item) then
        && item.Short? && |all| < MAX_COLLECTIONS && stack' == stack + [|all|]
        && all' == all + [NewCollection(m, RawValue(item.data))]
      else
        && all' == all
        && (if Closes(item) then stack != [] && stack' == stack[..|stack| - 1] else stack' == stack)
  {
    hide SetGlobal, SetLocal, NewCollection, NewField, ReportIndex, DecodeSigned;
  }

  lemma {:induction false} CollectionsCounted(items: seq<Item>, k: nat)
    requires k <= |items| && Run(INITIAL, items, k).Some?
    ensures |Run(INITIAL, items, k).value.schema.collections| == Opened(items, k)
  {
    hide Run, Step;
    if k == 0 {
      RunNone(INITIAL, items);
    } else {
      RunLast(INITIAL, items, k);
      CollectionsCounted(items, k - 1);
      CollectionStep(Run(INITIAL, items, k - 1).value, items[k - 1]);
    }
  }

  lemma {:induction false} StackAfterRun(items: seq<Item>, k: nat)
    requires k <= |items| && Run(INITIAL, items, k).Some?
    ensures StackMatches(items, k, Run(INITIAL, items, k).value.collectionStack)
  {
    hide Run, Step, StackMatches, Opens, Closes, Opened;
    if k == 0 {
      RunNone(INITIAL, items);
      NothingOpen(items);
    } else {
      RunLast(INITIAL, items, k);
      StackAfterRun(items, k - 1);
      CollectionsCounted(items, k - 1);
      var before := Run(INITIAL, items, k - 1).value;
      CollectionStep(before, items[k - 1]);
      OpensOrCloses(items[k - 1]);
      StepMatches(items, k, before.collectionStack, Run(INITIAL, items, k).value.collectionStack);
    }
  }

  lemma NothingOpen(items: seq<Item>)
    ensures StackMatches(items, 0, [])
  {
  }

  lemma OpensOrCloses(item: Item)
    ensures !(Opens(item) && Closes(item))
  {
  }

  lemma StepMatches(items: seq<Item>, k: nat, stack: seq<uint16>, stack': seq<uint16>)
    requires 0 < k <= |items| && StackMatches(items, k - 1, stack)
    requires Opens(items[k - 1]) ==> Opened(items, k - 1) < 0x1_0000 && stack' == stack + [Opened(items, k - 1)]
    requires Closes(items[k - 1]) ==> stack != [] && stack' == stack[..|stack| - 1]
    requires !Opens(items[k - 1]) && !Closes(items[k - 1]) ==> stack' == stack
    ensures StackMatches(items, k, stack')
  {
    hide Opened, Encloses, Opens, Closes;
    StepShape(items, k, stack, stack');
    forall q: nat | q < k
      ensures q in OpenPositions(items, k) <==> Encloses(items, q, k)
    {
      OpenAfterStep(items, k, q, stack);
    }
  }

  lemma StepShape(items: seq<Item>, k: nat, stack: seq<uint16>, stack': seq<uint16>)
    requires 0 < k <= |items| && StackMatches(items, k - 1, stack)
    requires Opens(items[k - 1]) ==> Opened(items, k - 1) < 0x1_0000 && stack' == stack + [Opened(items, k - 1)]
    requires Closes(items[k - 1]) ==> stack != [] && stack' == stack[..|stack| - 1]
    requires !Opens(items[k - 1]) && !Closes(items[k - 1]) ==> stack' == stack
    ensures var open' := OpenPositions(items, k);
      && |open'| == |stack'| == Depth(items, k)
      && (forall i | 0 <= i < |open'| ::
            open'[i] < k && Depth(items, open'[i]) == i && stack'[i] == Opened(items, open'[i]))
      && (forall i, j | 0 <= i < j < |open'| :: open'[i] < open'[j])
  {
    hide Opened, Encloses;
  }

  /** Which positions are open behind one more item. */
  lemma OpenAfterStep(items: seq<Item>, k: nat, q: nat, stack: seq<uint16>)
    requires 0 < k <= |items| && q < k && StackMatches(items, k - 1, stack)
    requires Closes(items[k - 1]) ==> stack != []
    ensures q in OpenPositions(items, k) <==> Encloses(items, q, k)
  {
    hide Opened;
    var open, open' := OpenPositions(items, k - 1), OpenPositions(items, k);
    if q == k - 1 {
      assert q in open' <==> Opens(items[q]);
    } else {
      EnclosesStep(items, q, k);
      if q in open {
        var i :| 0 <= i < |open| && open[i] == q;
        if !Closes(items[k - 1]) || i < |open| - 1 {
          assert open'[i] == q;
        }
      }
    }
  }

  lemma EnclosesStep(items: seq<Item>, q: nat, k: nat)
    requires 0 < k <= |items| && q < k - 1
    ensures Encloses(items, q, k) <==> Encloses(items, q, k - 1) && Depth(items, k) > Depth(items, q)
  {
    hide Depth;
  }

  /** An open collection at position `p` got the id, the type and the parent that the nesting
      of the items says. */
  ghost predicate CollectionMatches(items: seq<Item>, p: nat, collections: seq<Collection>)
    requires p < |items|
  {
    && Opened(items, p) < |collections|
    && var c := collections[Opened(items, p)];
       && items[p].Short?
       && c.kind == RawValue(items[p].data) % 0x100
       && (c.parent == NO_PARENT <==> forall q: nat :: !Encloses(items, q, p))
       && forall q: nat | Innermost(items, q, p) :: c.parent == Opened(items, q)
  }

  /** Collection and End Collection form a balanced word, and its tree is the parent relation. */
  lemma CollectionForest(data: seq<uint8>)
    requires Compile(data).Some?
    ensures Tokenise(data).Some?
    ensures var items, s := Tokenise(data).value, Compile(data).value;
      && Depth(items, |items|) == 0
      && (forall k | 0 <= k <= |items| :: Depth(items, k) >= 0)
      && |s.collections| == Opened(items, |items|)
      && forall p | 0 <= p < |items| && Opens(items[p]) :: CollectionMatches(items, p, s.collections)
  {
    var items := Tokenise(data).value;
    forall k | 0 <= k <= |items|
      ensures Depth(items, k) >= 0
    {
      PrefixRuns(items, k);
      StackAfterRun(items, k);
    }
    StackAfterRun(items, |items|);
    CollectionsCounted(items, |items|);
    CollectionsAfterRun(items, |items|);
  }

  lemma PrefixRuns(items: seq<Item>, k: nat)
    requires k <= |items| && Run(INITIAL, items, |items|).Some?
    ensures Run(INITIAL, items, k).Some?
  {
    hide Step;
    var n := |items|;
    while n > k
      invariant k <= n <= |items| && Run(INITIAL, items, n).Some?
    {
      RunLast(INITIAL, items, n);
      n := n - 1;
    }
  }

  lemma {:induction false} CollectionsAfterRun(items: seq<Item>, k: nat)
    requires k <= |items| && Run(INITIAL, items, k).Some?
    ensures forall p | 0 <= p < k && Opens(items[p]) ::
      CollectionMatches(items, p, Run(INITIAL, items, k).value.schema.collections)
  {
    hide Run, Step, StackMatches, Opened, CollectionMatches, NewCollection, RawValue;
    if k > 0 {
      RunLast(INITIAL, items, k);
      CollectionsAfterRun(items, k - 1);
      StackAfterRun(items, k - 1);
      CollectionsCounted(items, k - 1);
      var before := Run(INITIAL, items, k - 1).value;
      var earlier, later := before.schema.collections, Run(INITIAL, items, k).value.schema.collections;
      CollectionStep(before, items[k - 1]);
      forall p | 0 <= p < k && Opens(items[p])
        ensures CollectionMatches(items, p, later)
      {
        if p < k - 1 {
          MatchesMore(items, p, earlier, later);
        } else {
          NewCollectionMatches(items, p, before);
        }
      }
    }
  }

  lemma MatchesMore(items: seq<Item>, p: nat, collections: seq<Collection>, more: seq<Collection>)
    requires p < |items| && CollectionMatches(items, p, collections) && collections <= more
    ensures CollectionMatches(items, p, more)
  {
  }

  lemma NewCollectionMatches(items: seq<Item>, p: nat, m: Machine)
    requires p < |items| && Opens(items[p]) && Step(m, items[p]).Some?
    requires StackMatches(items, p, m.collectionStack) && |m.schema.collections| == Opened(items, p)
    ensures CollectionMatches(items, p, Step(m, items[p]).value.schema.collections)
  {
    hide Step;
    CollectionStep(m, items[p]);
    var open, stack := OpenPositions(items, p), m.collectionStack;
    if stack == [] {
      forall q: nat
        ensures !Encloses(items, q, p)
      {
      }
    } else {
      var last := open[|open| - 1];
      assert last in open && Encloses(items, last, p);
      OpenedGrows(items, last, p);
      forall q: nat | Innermost(items, q, p)
        ensures q == last
      {
        assert q in open;
      }
    }
  }

  lemma {:induction false} OpenedGrows(items: seq<Item>, a: nat, b: nat)
    requires a <= b <= |items|
    ensures Opened(items, a) <= Opened(items, b)
    decreases b
  {
    if a < b {
      OpenedGrows(items, a, b - 1);
    }
  }

  // ---------- scope of local items ----------

  predicate IsMainItem(item: Item) {
    item.Short? && TagOf(item.prefix) % 16 == MAIN
  }

  ghost predicate SameScope(a: Machine, b: Machine) {
    a.global == b.global && a.globalStack == b.globalStack && a.local == b.local
  }

  lemma MainKeepsGlobals(m: Machine, main: Item)
    requires IsMainItem(main) && Step(m, main).Some?
    ensures Step(m, main).value.global == m.global && Step(m, main).value.globalStack == m.globalStack
    ensures Step(m, main).value.local == NO_LOCALS
  {
    hide NewCollection, NewField, ReportIndex;
  }

  lemma StepSameScope(a: Machine, b: Machine, item: Item)
    requires SameScope(a, b) && !IsMainItem(item) && Step(a, item).Some? && Step(b, item).Some?
    ensures SameScope(Step(a, item).value, Step(b, item).value)
  {
    hide SetGlobal, SetLocal, NewCollection, NewField, ReportIndex, DecodeSigned;
  }

  /** Behind a Main item, two machines that agree on the global state stay in step. */
  lemma {:induction false} RunSameScope(a: Machine, b: Machine, items: seq<Item>, n: nat)
    requires 0 < n <= |items| && IsMainItem(items[0])
    requires forall i | 0 < i < n :: !IsMainItem(items[i])
    requires a.global == b.global && a.globalStack == b.globalStack
    requires Run(a, items, n).Some? && Run(b, items, n).Some?
    ensures SameScope(Run(a, items, n).value, Run(b, items, n).value)
  {
    hide Step;
    RunLast(a, items, n);
    RunLast(b, items, n);
    if n == 1 {
      MainKeepsGlobals(a, items[0]);
      MainKeepsGlobals(b, items[0]);
    } else {
      RunSameScope(a, b, items, n - 1);
      StepSameScope(Run(a, items, n - 1).value, Run(b, items, n - 1).value, items[n - 1]);
    }
  }

  predicate IsFieldItem(item: Item) {
    HasTag(item, INPUT) || HasTag(item, OUTPUT) || HasTag(item, FEATURE)
  }

  /** What a field says about usages, ranges and units depends only on the global state in front
      of the previous Main item and on the items since: the local items before it, the
      collections and the fields so far do not matter. */
  lemma FieldScope(a: Machine, b: Machine, items: seq<Item>)
    requires |items| >= 2 && IsMainItem(items[0]) && IsFieldItem(items[|items| - 1])
    requires forall i | 0 < i < |items| - 1 :: !IsMainItem(items[i])
    requires a.global == b.global && a.globalStack == b.globalStack
    requires Run(a, items, |items|).Some? && Run(b, items, |items|).Some?
    ensures var fa, fb := Run(a, items, |items|).value.schema.fields, Run(b, items, |items|).value.schema.fields;
      && fa != [] && fb != []
      && var x, y := fa[|fa| - 1], fb[|fb| - 1];
         x.(id := y.id, bitOffset := y.bitOffset, collectionId := y.collectionId) == y
  {
    hide Run, Step;
    var n := |items| - 1;
    RunLast(a, items, n + 1);
    RunLast(b, items, n + 1);
    RunSameScope(a, b, items, n);
    LastFieldScope(Run(a, items, n).value, Run(b, items, n).value, items[n]);
  }

  lemma LastFieldScope(a: Machine, b: Machine, field: Item)
    requires IsFieldItem(field) && SameScope(a, b) && Step(a, field).Some? && Step(b, field).Some?
    ensures var fa, fb := Step(a, field).value.schema.fields, Step(b, field).value.schema.fields;
      && fa != [] && fb != []
      && var x, y := fa[|fa| - 1], fb[|fb| - 1];
         x.(id := y.id, bitOffset := y.bitOffset, collectionId := y.collectionId) == y
  {
    hide AddField, WellFormed;
    var kind, raw := KindOf(TagOf(field.prefix)), RawValue(field.data);
    var ra, ba, x, aa := AddFieldEffect(a, kind, raw);
    var rb, bb, y, ab := AddFieldEffect(b, kind, raw);
  }
}
