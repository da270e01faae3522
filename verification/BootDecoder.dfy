/** Boot keyboard and boot mouse reports (appendix B of HID 1.11): HIDBootReportDecoder of
    boot_report_decoder.cpp, one state per characteristic handle. */
module BootDecoder {
  import opened Integers
  import Bits
  import opened Streams
  import opened HidSchema
  import opened HidDecoder
  import HidReplay

  type Delivery = HidReplay.Delivery

  const BUTTON_FIELD: nat := 0xF000
  const MODIFIER_FIELD: nat := 0xF100
  const KEY_FIELD: nat := 0xF200
  const MAX_KEY: uint8 := 0xE7

  /** The std::array<bool, 8> of one keyboard. */
  type Modifiers = m: seq<bool> | |m| == 8 witness seq(8, _ => false)

  datatype State = State(modifiers: map<uint16, Modifiers>, keys: map<uint16, set<uint8>>, buttons: map<uint16, uint8>)

  const RESET := State(map[], map[], map[])

  function ModifiersOf(s: State, handle: uint16): Modifiers {
    if handle in s.modifiers then s.modifiers[handle] else seq(8, _ => false)
  }

  function KeysOf(s: State, handle: uint16): set<uint8> {
    if handle in s.keys then s.keys[handle] else {}
  }

  function ButtonsOf(s: State, handle: uint16): uint8 {
    if handle in s.buttons then s.buttons[handle] else 0
  }

  predicate Bit(b: uint8, k: nat) {
    (b / Pow2(k)) % 2 == 1
  }

  function AsNumber(b: bool): int {
    if b then 1 else 0
  }

  function AsInt8(b: uint8): int {
    if b >= 0x80 then b - 0x100 else b
  }

  const MOUSE := Usage(0x02, 0x01)
  const KEYBOARD := Usage(0x06, 0x01)

  function BootValue(usage: Usage, application: Usage, value: int, raw: int, fieldId: nat, isAxis: bool): Value {
    Value(usage, application, value, raw, 0, fieldId, NO_PARENT, 0, isAxis,
          if isAxis then Aggregation.Sum else Passthrough)
  }

  function ButtonUsage(bit: nat): Usage
    requires bit < 3
  {
    Usage(bit + 1, 0x09)
  }

  /** Changes of the first `n` mouse buttons. */
  function ButtonEvents(before: uint8, now: uint8, n: nat): seq<Value>
    requires n <= 3
  {
    if n == 0 then []
    else
      var v := AsNumber(Bit(now, n - 1));
      ButtonEvents(before, now, n - 1)
        + (if Bit(now, n - 1) != Bit(before, n - 1)
           then [BootValue(ButtonUsage(n - 1), MOUSE, v, v, BUTTON_FIELD + (n - 1), false)] else [])
  }

  function AxisEvents(usage: uint16, fieldId: nat, motion: int): seq<Value> {
    if motion == 0 then [] else [BootValue(Usage(usage, 0x01), MOUSE, motion, motion, fieldId, true)]
  }

  function MouseEvents(before: uint8, bytes: seq<uint8>): seq<Value>
    requires |bytes| >= 3
  {
    ButtonEvents(before, bytes[0], 3)
      + AxisEvents(0x30, AXIS_X_FIELD, AsInt8(bytes[1])) + AxisEvents(0x31, AXIS_Y_FIELD, AsInt8(bytes[2]))
  }

  function ModifierUsage(bit: nat): Usage
    requires bit < 8
  {
    Usage(0xE0 + bit, 0x07)
  }

  /** Changes of the first `n` modifier keys. */
  function ModifierEvents(before: Modifiers, now: uint8, n: nat): seq<Value>
    requires n <= 8
  {
    if n == 0 then []
    else
      var v := AsNumber(Bit(now, n - 1));
      ModifierEvents(before, now, n - 1)
        + (if Bit(now, n - 1) != before[n - 1]
           then [BootValue(ModifierUsage(n - 1), KEYBOARD, v, v, MODIFIER_FIELD + (n - 1), false)] else [])
  }

  function ModifierBits(now: uint8, before: Modifiers, n: nat): Modifiers
    requires n <= 8
  {
    seq(8, k requires 0 <= k < 8 => if k < n then Bit(now, k) else before[k])
  }

  /** The keys in slots 2 to 7; zero and values past the last keyboard usage are no keys. */
  function PressedKeys(bytes: seq<uint8>, n: nat): set<uint8>
    requires n <= |bytes|
  {
    if n <= 2 then {}
    else PressedKeys(bytes, n - 1)
         + (if bytes[n - 1] != 0 && bytes[n - 1] <= MAX_KEY then {bytes[n - 1]} else {})
  }

  function KeyUsage(key: uint8): Usage {
    Usage(key, 0x07)
  }

  /** Presses (value 1) or releases (value 0) of the keys below `n` that are in `a` and not in `b`. */
  function KeyEvents(a: set<uint8>, b: set<uint8>, value: int, n: nat): seq<Value>
    requires n <= 0x100
  {
    if n == 0 then []
    else
      var key: uint8 := n - 1;
      KeyEvents(a, b, value, n - 1)
        + (if key in a && key !in b
           then [BootValue(KeyUsage(key), KEYBOARD, value, if value == 1 then key else 0, KEY_FIELD, false)] else [])
  }

  function KeyboardEvents(modifiers: Modifiers, keys: set<uint8>, bytes: seq<uint8>): seq<Value>
    requires |bytes| >= 8
  {
    var now := PressedKeys(bytes, 8);
    ModifierEvents(modifiers, bytes[0], 8) + KeyEvents(now, keys, 1, 0x100) + KeyEvents(keys, now, 0, 0x100)
  }

  datatype BootRoute =
    | Ignored(status: Status)
    | Mouse(status: Status, bytes: seq<uint8>)
    | Keyboard(status: Status, bytes: seq<uint8>)

  function BootRouteOf(source: Source, payload: Buffer): (route: BootRoute)
    ensures route.Mouse? ==> |route.bytes| >= 3
    ensures route.Keyboard? ==> |route.bytes| >= 8
  {
    if payload.Null? && payload.length != 0 then Ignored(InvalidPayload)
    else
      var bytes := if payload.Null? then [] else payload.bytes;
      if source.uuid == BOOT_MOUSE then
        if |bytes| < 3 then Ignored(Status.Short) else Mouse(if |bytes| == 3 then Exact else Status.Long, bytes)
      else if source.uuid == BOOT_KEYBOARD then
        if |bytes| < 8 then Ignored(Status.Short) else Keyboard(if |bytes| == 8 then Exact else Status.Long, bytes)
      else Ignored(BootReport)
  }

  function DecodeEvents(s: State, source: Source, payload: Buffer): seq<Value>
  {
    match BootRouteOf(source, payload)
    case Ignored(_) => []
    case Mouse(_, bytes) => MouseEvents(ButtonsOf(s, source.handle), bytes)
    case Keyboard(_, bytes) => KeyboardEvents(ModifiersOf(s, source.handle), KeysOf(s, source.handle), bytes)
  }

  function DecodeState(s: State, source: Source, payload: Buffer): State
  {
    match BootRouteOf(source, payload)
    case Ignored(_) => s
    case Mouse(_, bytes) => s.(buttons := s.buttons[source.handle := bytes[0]])
    case Keyboard(_, bytes) =>
      s.(modifiers := s.modifiers[source.handle := ModifierBits(bytes[0], ModifiersOf(s, source.handle), 8)],
         keys := s.keys[source.handle := PressedKeys(bytes, 8)])
  }

  // ---------- the object ----------

  class HIDBootReportDecoder {
    var modifiers: map<uint16, Modifiers>
    var keys: map<uint16, set<uint8>>
    var buttons: map<uint16, uint8>

    function Snapshot(): State
      reads this
    {
      State(modifiers, keys, buttons)
    }

    constructor ()
      ensures Snapshot() == RESET
    {
      modifiers, keys, buttons := map[], map[], map[];
    }

    method Reset()
      modifies this
      ensures Snapshot() == RESET
    {
      modifiers, keys, buttons := map[], map[], map[];
    }

    method DecodeMouse(handle: uint16, bytes: seq<uint8>) returns (values: seq<Value>)
      requires |bytes| >= 3
      modifies this`buttons
      ensures values == MouseEvents(ButtonsOf(old(Snapshot()), handle), bytes)
      ensures buttons == old(buttons)[handle := bytes[0]]
    {
      hide Bit;
      var previous := if handle in buttons then buttons[handle] else 0;
      values := [];
      for bit := 0 to 3
        invariant values == ButtonEvents(previous, bytes[0], bit)
      {
        var active, wasActive := Bit(bytes[0], bit), Bit(previous, bit);
        if active != wasActive {
          values := values + [BootValue(ButtonUsage(bit), MOUSE, AsNumber(active), AsNumber(active),
                                        BUTTON_FIELD + bit, false)];
        }
      }
      buttons := buttons[handle := bytes[0]];
      var x, y := AsInt8(bytes[1]), AsInt8(bytes[2]);
      if x != 0 {
        values := values + [BootValue(Usage(0x30, 0x01), MOUSE, x, x, AXIS_X_FIELD, true)];
      }
      if y != 0 {
        values := values + [BootValue(Usage(0x31, 0x01), MOUSE, y, y, AXIS_Y_FIELD, true)];
      }
    }

    method DecodeModifiers(handle: uint16, now: uint8) returns (values: seq<Value>)
      modifies this`modifiers
      ensures values == ModifierEvents(ModifiersOf(old(Snapshot()), handle), now, 8)
      ensures modifiers == old(modifiers)[handle := ModifierBits(now, ModifiersOf(old(Snapshot()), handle), 8)]
    {
      hide Bit;
      var before: Modifiers := if handle in modifiers then modifiers[handle] else seq(8, _ => false);
      var current: Modifiers := before;
      values := [];
      for bit := 0 to 8
        invariant modifiers == old(modifiers)
        invariant current == ModifierBits(now, before, bit)
        invariant values == ModifierEvents(before, now, bit)
      {
        var active := Bit(now, bit);
        if current[bit] != active {
          values := values + [BootValue(ModifierUsage(bit), KEYBOARD, AsNumber(active), AsNumber(active),
                                        MODIFIER_FIELD + bit, false)];
          current := current[bit := active];
        }
      }
      modifiers := modifiers[handle := current];
    }

    /** A std::set is walked in ascending order. */
    method EmitKeys(a: set<uint8>, b: set<uint8>, value: int) returns (values: seq<Value>)
      ensures values == KeyEvents(a, b, value, 0x100)
    {
      values := [];
      for key := 0 to 0x100
        invariant values == KeyEvents(a, b, value, key)
      {
        if key in a && key !in b {
          values := values
            + [BootValue(KeyUsage(key), KEYBOARD, value, if value == 1 then key else 0, KEY_FIELD, false)];
        }
      }
    }

    method Decode(source: Source, payload: Buffer) returns (values: seq<Value>, status: Status)
      modifies this
      ensures values == DecodeEvents(old(Snapshot()), source, payload)
      ensures Snapshot() == DecodeState(old(Snapshot()), source, payload)
      ensures status == BootRouteOf(source, payload).status
    {
      hide Bit, ButtonEvents, ModifierEvents, KeyEvents, ModifierBits, AxisEvents;
      if payload.Null? && payload.length != 0 {
        return [], InvalidPayload;
      }
      var data := if payload.Null? then [] else payload.bytes;
      var handle := source.handle;
      if source.uuid == BOOT_MOUSE {
        if |data| < 3 {
          return [], Status.Short;
        }
        status := if |data| == 3 then Exact else Status.Long;
        values := DecodeMouse(handle, data);
        return;
      }
      if source.uuid == BOOT_KEYBOARD {
        if |data| < 8 {
          return [], Status.Short;
        }
        status := if |data| == 8 then Exact else Status.Long;
        var changed := DecodeModifiers(handle, data[0]);
        var current: set<uint8> := {};
        for i := 2 to 8
          invariant keys == old(keys) && buttons == old(buttons)
          invariant modifiers == DecodeState(old(Snapshot()), source, payload).modifiers
          invariant current == PressedKeys(data, i)
        {
          if data[i] != 0 && data[i] <= MAX_KEY {
            current := current + {data[i]};
          }
        }
        var previous := if handle in keys then keys[handle] else {};
        var pressed := EmitKeys(current, previous, 1);
        var released := EmitKeys(previous, current, 0);
        keys := keys[handle := current];
        values := changed + pressed + released;
        return;
      }
      return [], BootReport;
    }
  }

  // ---------- what the bytes say ----------

  /** A keyboard report holds a key down in one of its six slots; zero is no key, and neither are the codes
      past the last keyboard usage. */
  predicate HoldsKey(bytes: seq<uint8>, code: uint8)
    requires |bytes| >= 8
  {
    code != 0 && code <= 0xE7 && exists i :: 2 <= i < 8 && bytes[i] == code
  }

  lemma {:induction false} PressedUpTo(bytes: seq<uint8>, n: nat, code: uint8)
    requires n <= |bytes|
    ensures code in PressedKeys(bytes, n)
      <==> code != 0 && code <= 0xE7 && exists i :: 2 <= i < n && bytes[i] == code
  {
    if n > 2 {
      PressedUpTo(bytes, n - 1, code);
      if code in PressedKeys(bytes, n) && code !in PressedKeys(bytes, n - 1) {
        assert bytes[n - 1] == code;
      }
    }
  }

  /** The key set of the decoder is what the six slots hold. */
  lemma PressedAreHeld(bytes: seq<uint8>, code: uint8)
    requires |bytes| >= 8
    ensures code in PressedKeys(bytes, 8) <==> HoldsKey(bytes, code)
  {
    hide PressedKeys;
    PressedUpTo(bytes, 8, code);
  }

  /** The low `n` bits of a byte as a number. */
  function LowBits(b: uint8, n: nat): nat
    requires n <= 8
  {
    if n == 0 then 0 else LowBits(b, n - 1) + (if Bit(b, n - 1) then Pow2(n - 1) else 0)
  }

  /** Bit `k` weighs 2 to the power of `k`: the bits of a byte make the byte. */
  lemma BitsMakeByte(b: uint8)
    ensures LowBits(b, 8) == b
  {
    LowBitsValue(b, 8);
    Pow2Values();
  }

  lemma {:induction false} LowBitsValue(b: uint8, n: nat)
    requires n <= 8
    ensures LowBits(b, n) == b % Pow2(n)
  {
    if n > 0 {
      LowBitsValue(b, n - 1);
      Bits.ModuloSplit(b, Pow2(n - 1), 2);
    }
  }

  /** Axis bytes are two's complement. */
  lemma SignedByte(b: uint8)
    ensures -0x80 <= AsInt8(b) < 0x80 && (AsInt8(b) - b) % 0x100 == 0
  {
  }

  /** Which reports are taken, as what, and with which status. */
  lemma BootRouteMeaning(source: Source, payload: Buffer)
    ensures var route := BootRouteOf(source, payload);
      var size := if payload.Null? then 0 else |payload.bytes|;
      var valid := payload.Null? ==> payload.length == 0;
      && (route.Mouse? <==> valid && source.uuid == 0x2A33 && size >= 3)
      && (route.Keyboard? <==> valid && source.uuid == 0x2A22 && size >= 8)
      && (!route.Ignored? ==> payload == Bytes(route.bytes))
      && (route.Mouse? ==> route.status == if size == 3 then Exact else Status.Long)
      && (route.Keyboard? ==> route.status == if size == 8 then Exact else Status.Long)
      && (route.Ignored? ==>
            route.status == if !valid then InvalidPayload
                            else if source.uuid == 0x2A33 || source.uuid == 0x2A22 then Status.Short
                            else BootReport)
  {
  }

  // ---------- signals over whole runs ----------

  /** Something a boot report can report about. */
  datatype Signal = Button(bit: nat) | Modifier(bit: nat) | Key(code: uint8) | AxisX | AxisY
  {
    predicate Legal() {
      match this
      case Button(bit) => bit < 3
      case Modifier(bit) => bit < 8
      case Key(_) | AxisX | AxisY => true
    }

    predicate IsAxis() { AxisX? || AxisY? }

    function FieldId(): nat
      requires Legal()
    {
      match this
      case Button(bit) => 0xF000 + bit
      case Modifier(bit) => 0xF100 + bit
      case Key(_) => 0xF200
      case AxisX => 0xF010
      case AxisY => 0xF011
    }

    function UsageId(): Usage
      requires Legal()
    {
      match this
      case Button(bit) => Usage(bit + 1, 0x09)
      case Modifier(bit) => Usage(0xE0 + bit, 0x07)
      case Key(code) => Usage(code, 0x07)
      case AxisX => Usage(0x30, 0x01)
      case AxisY => Usage(0x31, 0x01)
    }

    /** The key values are emitted under. */
    predicate Labels(v: Value)
      requires Legal()
    {
      v.fieldId == FieldId() && v.usage == UsageId()
    }

    /** What an accepted report says about the signal. */
    function Sample(route: BootRoute): Option<int>
      requires Legal()
      requires route.Mouse? ==> |route.bytes| >= 3
      requires route.Keyboard? ==> |route.bytes| >= 8
    {
      match this
      case Button(bit) => if route.Mouse? then Some(AsNumber(Bit(route.bytes[0], bit))) else None
      case Modifier(bit) => if route.Keyboard? then Some(AsNumber(Bit(route.bytes[0], bit))) else None
      case Key(code) => if route.Keyboard? then Some(AsNumber(HoldsKey(route.bytes, code))) else None
      case AxisX => if route.Mouse? then Some(AsInt8(route.bytes[1])) else None
      case AxisY => if route.Mouse? then Some(AsInt8(route.bytes[2])) else None
    }

    /** The level that the decoder has stored; axes have none. */
    function Level(s: State, handle: uint16): int
      requires Legal()
    {
      match this
      case Button(bit) => AsNumber(Bit(ButtonsOf(s, handle), bit))
      case Modifier(bit) => AsNumber(ModifiersOf(s, handle)[bit])
      case Key(code) => AsNumber(code in KeysOf(s, handle))
      case AxisX | AxisY => 0
    }
  }

  /** All that a value says beside its amount: a button or modifier its level, a key its code while it is
      down, an axis its motion. */
  ghost predicate Speaks(signal: Signal, v: Value) {
    && signal.Legal() && signal.Labels(v)
    && v.application == (if signal.Key? || signal.Modifier? then Usage(0x06, 0x01) else Usage(0x02, 0x01))
    && v.isRelative == signal.IsAxis() && v.aggregation == (if signal.IsAxis() then Aggregation.Sum else Passthrough)
    && v.raw == (if signal.Key? then if v.value == 1 then signal.code else 0 else v.value)
    && (signal.IsAxis() || v.value == 0 || v.value == 1)
    && v.collectionId == NO_PARENT && v.reportId == 0
  }

  ghost predicate AllSpeak(events: seq<Value>) {
    forall v | v in events :: exists signal :: Speaks(signal, v)
  }

  lemma SpeakConcat(a: seq<Value>, b: seq<Value>)
    requires AllSpeak(a) && AllSpeak(b)
    ensures AllSpeak(a + b)
  {
    hide Speaks;
  }

  lemma {:induction false} ButtonsSpeak(before: uint8, now: uint8, n: nat)
    requires n <= 3
    ensures AllSpeak(ButtonEvents(before, now, n))
  {
    hide Bit;
    if n > 0 {
      ButtonsSpeak(before, now, n - 1);
      var v := AsNumber(Bit(now, n - 1));
      assert Speaks(Button(n - 1), BootValue(ButtonUsage(n - 1), MOUSE, v, v, BUTTON_FIELD + (n - 1), false));
      hide Speaks;
    }
  }

  lemma {:induction false} ModifiersSpeak(before: Modifiers, now: uint8, n: nat)
    requires n <= 8
    ensures AllSpeak(ModifierEvents(before, now, n))
  {
    hide Bit;
    if n > 0 {
      ModifiersSpeak(before, now, n - 1);
      var v := AsNumber(Bit(now, n - 1));
      assert Speaks(Modifier(n - 1), BootValue(ModifierUsage(n - 1), KEYBOARD, v, v, MODIFIER_FIELD + (n - 1), false));
      hide Speaks;
    }
  }

  lemma {:induction false} KeysSpeak(a: set<uint8>, b: set<uint8>, value: int, n: nat)
    requires n <= 0x100 && (value == 0 || value == 1)
    ensures AllSpeak(KeyEvents(a, b, value, n))
  {
    if n > 0 {
      KeysSpeak(a, b, value, n - 1);
      var key: uint8 := n - 1;
      assert Speaks(Key(key),
                    BootValue(KeyUsage(key), KEYBOARD, value, if value == 1 then key else 0, KEY_FIELD, false));
      hide Speaks;
    }
  }

  /** Every value of a boot report is that of a signal, with its application, raw value and aggregation. */
  lemma BootValuesSpeak(s: State, source: Source, payload: Buffer)
    ensures AllSpeak(DecodeEvents(s, source, payload))
  {
    hide AllSpeak, ButtonEvents, AxisEvents, ModifierEvents, KeyEvents, PressedKeys, AsInt8;
    match BootRouteOf(source, payload) {
      case Ignored(_) => NothingSpeaks();
      case Mouse(_, bytes) =>
        var buttons := ButtonEvents(ButtonsOf(s, source.handle), bytes[0], 3);
        var xs := AxisEvents(0x30, AXIS_X_FIELD, AsInt8(bytes[1]));
        ButtonsSpeak(ButtonsOf(s, source.handle), bytes[0], 3);
        AxesSpeak(AsInt8(bytes[1]));
        AxesSpeak(AsInt8(bytes[2]));
        SpeakConcat(buttons, xs);
        SpeakConcat(buttons + xs, AxisEvents(0x31, AXIS_Y_FIELD, AsInt8(bytes[2])));
      case Keyboard(_, bytes) =>
        var held, now := KeysOf(s, source.handle), PressedKeys(bytes, 8);
        var changed, pressed := ModifierEvents(ModifiersOf(s, source.handle), bytes[0], 8),
          KeyEvents(now, held, 1, 0x100);
        ModifiersSpeak(ModifiersOf(s, source.handle), bytes[0], 8);
        KeysSpeak(now, held, 1, 0x100);
        KeysSpeak(held, now, 0, 0x100);
        SpeakConcat(changed, pressed);
        SpeakConcat(changed + pressed, KeyEvents(held, now, 0, 0x100));
    }
  }

  lemma NothingSpeaks()
    ensures AllSpeak([])
  {
  }

  lemma AxesSpeak(motion: int)
    ensures AllSpeak(AxisEvents(0x30, AXIS_X_FIELD, motion)) && AllSpeak(AxisEvents(0x31, AXIS_Y_FIELD, motion))
  {
    assert Speaks(AxisX, BootValue(Usage(0x30, 0x01), MOUSE, motion, motion, AXIS_X_FIELD, true));
    assert Speaks(AxisY, BootValue(Usage(0x31, 0x01), MOUSE, motion, motion, AXIS_Y_FIELD, true));
  }

  /** The emitted values of one signal. */
  function At(events: seq<Value>, signal: Signal): seq<int>
    requires signal.Legal()
  {
    if events == [] then []
    else
      var last := events[|events| - 1];
      At(events[..|events| - 1], signal) + (if signal.Labels(last) then [last.value] else [])
  }

  lemma {:induction false} AtConcat(a: seq<Value>, b: seq<Value>, signal: Signal)
    requires signal.Legal()
    ensures At(a + b, signal) == At(a, signal) + At(b, signal)
  {
    hide Signal.Labels;
    if b == [] {
      assert a + b == a;
    } else {
      assert (a + b)[..|a + b| - 1] == a + b[..|b| - 1];
      AtConcat(a, b[..|b| - 1], signal);
    }
  }

  lemma AtOne(v: Value, signal: Signal)
    requires signal.Legal()
    ensures At([v], signal) == if signal.Labels(v) then [v.value] else []
  {
    assert [v][..0] == [];
  }

  lemma {:induction false} AtButtons(before: uint8, now: uint8, n: nat, signal: Signal)
    requires n <= 3 && signal.Legal()
    ensures At(ButtonEvents(before, now, n), signal)
      == if signal.Button? && signal.bit < n && Bit(now, signal.bit) != Bit(before, signal.bit)
         then [AsNumber(Bit(now, signal.bit))] else []
  {
    hide Bit, At;
    if n == 0 {
      AtNothing(signal);
    } else {
      AtButtons(before, now, n - 1, signal);
      var v := AsNumber(Bit(now, n - 1));
      var e := BootValue(ButtonUsage(n - 1), MOUSE, v, v, BUTTON_FIELD + (n - 1), false);
      AtConcat(ButtonEvents(before, now, n - 1), [e], signal);
      AtOne(e, signal);
      assert ButtonEvents(before, now, n - 1) + [] == ButtonEvents(before, now, n - 1);
    }
  }

  lemma AtNothing(signal: Signal)
    requires signal.Legal()
    ensures At([], signal) == []
  {
  }

  lemma {:induction false} AtModifiers(before: Modifiers, now: uint8, n: nat, signal: Signal)
    requires n <= 8 && signal.Legal()
    ensures At(ModifierEvents(before, now, n), signal)
      == if signal.Modifier? && signal.bit < n && Bit(now, signal.bit) != before[signal.bit]
         then [AsNumber(Bit(now, signal.bit))] else []
  {
    hide Bit, At;
    if n == 0 {
      AtNothing(signal);
    } else {
      AtModifiers(before, now, n - 1, signal);
      var v := AsNumber(Bit(now, n - 1));
      var e := BootValue(ModifierUsage(n - 1), KEYBOARD, v, v, MODIFIER_FIELD + (n - 1), false);
      AtConcat(ModifierEvents(before, now, n - 1), [e], signal);
      AtOne(e, signal);
      assert ModifierEvents(before, now, n - 1) + [] == ModifierEvents(before, now, n - 1);
    }
  }

  lemma {:induction false} AtKeys(a: set<uint8>, b: set<uint8>, value: int, n: nat, signal: Signal)
    requires n <= 0x100 && signal.Legal()
    ensures At(KeyEvents(a, b, value, n), signal)
      == if signal.Key? && signal.code < n && signal.code in a && signal.code !in b then [value] else []
  {
    hide At;
    if n == 0 {
      AtNothing(signal);
    } else {
      AtKeys(a, b, value, n - 1, signal);
      var key: uint8 := n - 1;
      var e := BootValue(KeyUsage(key), KEYBOARD, value, if value == 1 then key else 0, KEY_FIELD, false);
      AtConcat(KeyEvents(a, b, value, n - 1), [e], signal);
      AtOne(e, signal);
      assert KeyEvents(a, b, value, n - 1) + [] == KeyEvents(a, b, value, n - 1);
    }
  }

  lemma AtAxis(usage: uint16, fieldId: nat, motion: int, signal: Signal)
    requires signal.Legal()
    requires (usage == 0x30 && fieldId == AXIS_X_FIELD) || (usage == 0x31 && fieldId == AXIS_Y_FIELD)
    ensures At(AxisEvents(usage, fieldId, motion), signal)
      == if ((signal.AxisX? && usage == 0x30) || (signal.AxisY? && usage == 0x31)) && motion != 0 then [motion] else []
  {
    hide At;
    AtNothing(signal);
    AtOne(BootValue(Usage(usage, 0x01), MOUSE, motion, motion, fieldId, true), signal);
  }

  lemma AtMouse(before: uint8, bytes: seq<uint8>, signal: Signal)
    requires |bytes| >= 3 && signal.Legal()
    ensures At(MouseEvents(before, bytes), signal)
      == (match signal
          case Button(bit) => if Bit(bytes[0], bit) != Bit(before, bit) then [AsNumber(Bit(bytes[0], bit))] else []
          case AxisX => if AsInt8(bytes[1]) != 0 then [AsInt8(bytes[1])] else []
          case AxisY => if AsInt8(bytes[2]) != 0 then [AsInt8(bytes[2])] else []
          case _ => [])
  {
    hide Bit, At, ButtonEvents, AxisEvents, AsInt8, Signal.Labels;
    var x, y := AxisEvents(0x30, AXIS_X_FIELD, AsInt8(bytes[1])), AxisEvents(0x31, AXIS_Y_FIELD, AsInt8(bytes[2]));
    AtButtons(before, bytes[0], 3, signal);
    AtAxis(0x30, AXIS_X_FIELD, AsInt8(bytes[1]), signal);
    AtAxis(0x31, AXIS_Y_FIELD, AsInt8(bytes[2]), signal);
    AtConcat(ButtonEvents(before, bytes[0], 3), x, signal);
    AtConcat(ButtonEvents(before, bytes[0], 3) + x, y, signal);
  }

  lemma AtKeyboard(before: Modifiers, held: set<uint8>, bytes: seq<uint8>, signal: Signal)
    requires |bytes| >= 8 && signal.Legal()
    ensures At(KeyboardEvents(before, held, bytes), signal)
      == (match signal
          case Modifier(bit) => if Bit(bytes[0], bit) != before[bit] then [AsNumber(Bit(bytes[0], bit))] else []
          case Key(code) =>
            var now := HoldsKey(bytes, code);
            if now != (code in held) then [AsNumber(now)] else []
          case _ => [])
  {
    hide Bit, At, ModifierEvents, KeyEvents, PressedKeys, HoldsKey, Signal.Labels;
    var now := PressedKeys(bytes, 8);
    if signal.Key? {
      PressedAreHeld(bytes, signal.code);
    }
    var a, b, c := ModifierEvents(before, bytes[0], 8), KeyEvents(now, held, 1, 0x100), KeyEvents(held, now, 0, 0x100);
    AtModifiers(before, bytes[0], 8, signal);
    AtKeys(now, held, 1, 0x100, signal);
    AtKeys(held, now, 0, 0x100, signal);
    AtConcat(a, b, signal);
    AtConcat(a + b, c, signal);
  }

  /** What one delivery emits for a signal of its handle, and the stored level behind it. */
  lemma SignalDelivery(s: State, source: Source, payload: Buffer, signal: Signal)
    requires signal.Legal()
    ensures var sample, level := signal.Sample(BootRouteOf(source, payload)), signal.Level(s, source.handle);
      && At(DecodeEvents(s, source, payload), signal)
         == (if sample.Some? && sample.value != level then [sample.value] else [])
      && signal.Level(DecodeState(s, source, payload), source.handle)
         == (if sample.Some? && !signal.IsAxis() then sample.value else level)
  {
    hide Bit, At, MouseEvents, KeyboardEvents, PressedKeys, HoldsKey, AsInt8;
    match BootRouteOf(source, payload) {
      case Ignored(_) => AtNothing(signal);
      case Mouse(_, bytes) => AtMouse(ButtonsOf(s, source.handle), bytes, signal);
      case Keyboard(_, bytes) =>
        AtKeyboard(ModifiersOf(s, source.handle), KeysOf(s, source.handle), bytes, signal);
        if signal.Key? {
          PressedAreHeld(bytes, signal.code);
        }
    }
  }

  /** The decoder state after the first `n` deliveries. */
  function RunState(run: seq<Delivery>, n: nat): State
    requires n <= |run|
  {
    if n == 0 then RESET else DecodeState(RunState(run, n - 1), run[n - 1].source, run[n - 1].payload)
  }

  /** What the first `n` deliveries emitted for one characteristic. */
  function HandleEvents(run: seq<Delivery>, handle: uint16, n: nat): seq<Value>
    requires n <= |run|
  {
    if n == 0 then []
    else
      HandleEvents(run, handle, n - 1)
        + (if run[n - 1].source.handle == handle
           then DecodeEvents(RunState(run, n - 1), run[n - 1].source, run[n - 1].payload) else [])
  }

  /** What the accepted reports of one characteristic said about a signal. */
  function Samples(run: seq<Delivery>, handle: uint16, signal: Signal, n: nat): seq<int>
    requires n <= |run| && signal.Legal()
  {
    if n == 0 then []
    else
      Samples(run, handle, signal, n - 1)
        + (if run[n - 1].source.handle != handle then []
           else
             match signal.Sample(BootRouteOf(run[n - 1].source, run[n - 1].payload))
             case None => []
             case Some(v) => [v])
  }

  function Expected(signal: Signal, samples: seq<int>): seq<int> {
    if signal.IsAxis() then NonZero(samples) else Changes(0, samples)
  }

  lemma ExpectedAppend(signal: Signal, samples: seq<int>, v: int)
    ensures Expected(signal, samples + [v])
      == Expected(signal, samples) + (if v != (if signal.IsAxis() then 0 else Last(0, samples)) then [v] else [])
    ensures Last(0, samples + [v]) == v
  {
    assert (samples + [v])[..|samples|] == samples;
  }

  lemma OtherHandle(s: State, source: Source, payload: Buffer, handle: uint16, signal: Signal)
    requires signal.Legal() && handle != source.handle
    ensures signal.Level(DecodeState(s, source, payload), handle) == signal.Level(s, handle)
  {
    hide Bit, PressedKeys;
  }

  /** Over any run, in any interleaving of characteristics, lengths and kinds, the values emitted
      for a signal of one characteristic are the changes (buttons and keys) or the motions (axes)
      that its own accepted reports contain. */
  lemma {:induction false} SignalReplay(run: seq<Delivery>, handle: uint16, signal: Signal, n: nat)
    requires n <= |run| && signal.Legal()
    ensures At(HandleEvents(run, handle, n), signal) == Expected(signal, Samples(run, handle, signal, n))
    ensures signal.Level(RunState(run, n), handle)
      == if signal.IsAxis() then 0 else Last(0, Samples(run, handle, signal, n))
  {
    hide Bit, At, DecodeEvents, DecodeState, Signal.Sample, Signal.Level, Signal.Labels, BootRouteOf, HandleEvents,
      Samples, RunState, Expected, Last;
    if n == 0 {
      NothingReplayed(run, handle, signal);
      ReplayStart(handle, signal);
    } else {
      var d, before, samples := run[n - 1], RunState(run, n - 1), Samples(run, handle, signal, n - 1);
      SignalReplay(run, handle, signal, n - 1);
      NextReplayed(run, handle, signal, n - 1);
      if d.source.handle == handle {
        SignalDelivery(before, d.source, d.payload, signal);
        AtConcat(HandleEvents(run, handle, n - 1), DecodeEvents(before, d.source, d.payload), signal);
        var sample := signal.Sample(BootRouteOf(d.source, d.payload));
        if sample.Some? {
          ExpectedAppend(signal, samples, sample.value);
        } else {
          assert Expected(signal, samples) + [] == Expected(signal, samples);
        }
      } else {
        OtherHandle(before, d.source, d.payload, handle, signal);
      }
    }
  }

  lemma NothingReplayed(run: seq<Delivery>, handle: uint16, signal: Signal)
    requires signal.Legal()
    ensures HandleEvents(run, handle, 0) == [] && Samples(run, handle, signal, 0) == [] && RunState(run, 0) == RESET
  {
  }

  /** One more delivery. */
  lemma NextReplayed(run: seq<Delivery>, handle: uint16, signal: Signal, n: nat)
    requires n < |run| && signal.Legal()
    ensures var d, s, sample := run[n], RunState(run, n), signal.Sample(BootRouteOf(run[n].source, run[n].payload));
      && RunState(run, n + 1) == DecodeState(s, d.source, d.payload)
      && HandleEvents(run, handle, n + 1)
         == (if d.source.handle == handle then HandleEvents(run, handle, n) + DecodeEvents(s, d.source, d.payload)
             else HandleEvents(run, handle, n))
      && Samples(run, handle, signal, n + 1)
         == (if d.source.handle == handle && sample.Some? then Samples(run, handle, signal, n) + [sample.value]
             else Samples(run, handle, signal, n))
  {
    hide DecodeEvents, DecodeState, Signal.Sample, BootRouteOf;
  }

  lemma ReplayStart(handle: uint16, signal: Signal)
    requires signal.Legal()
    ensures At([], signal) == Expected(signal, [])
    ensures signal.Level(RESET, handle) == 0 == Last(0, [])
  {
    BitOfZero(if signal.Button? then signal.bit else 0);
  }

  lemma BitOfZero(k: nat)
    ensures !Bit(0, k)
  {
    assert 0 / Pow2(k) == 0;
  }

  lemma {:induction false} SamplesBinary(run: seq<Delivery>, handle: uint16, signal: Signal, n: nat)
    requires n <= |run| && signal.Legal() && !signal.IsAxis()
    ensures forall i | 0 <= i < |Samples(run, handle, signal, n)| ::
      Samples(run, handle, signal, n)[i] == 0 || Samples(run, handle, signal, n)[i] == 1
  {
    hide Bit, HoldsKey;
    if n > 0 {
      SamplesBinary(run, handle, signal, n - 1);
    }
  }

  /** Buttons, modifiers and keys alternate 1, 0, 1, 0, ... and end at what the last accepted
      report of their characteristic says. */
  lemma KeysAlternate(run: seq<Delivery>, handle: uint16, signal: Signal)
    requires signal.Legal() && !signal.IsAxis()
    ensures var emitted := At(HandleEvents(run, handle, |run|), signal);
      && (forall i | 0 <= i < |emitted| :: emitted[i] == 1 - i % 2)
      && |emitted| % 2 == Last(0, Samples(run, handle, signal, |run|))
  {
    hide At, HandleEvents, Samples, Last;
    SignalReplay(run, handle, signal, |run|);
    SamplesBinary(run, handle, signal, |run|);
    BinaryChanges(Samples(run, handle, signal, |run|));
  }

  /** The emitted X and Y motions add up to the signed bytes received. */
  lemma AxesAddUp(run: seq<Delivery>, handle: uint16, signal: Signal)
    requires signal.Legal() && signal.IsAxis()
    ensures var emitted := At(HandleEvents(run, handle, |run|), signal);
      Streams.Sum(emitted) == Streams.Sum(Samples(run, handle, signal, |run|)) && 0 !in emitted
  {
    hide At, HandleEvents, Samples;
    SignalReplay(run, handle, signal, |run|);
    NonZeroSum(Samples(run, handle, signal, |run|));
  }
}
