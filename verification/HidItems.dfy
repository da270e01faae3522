/** Framing of HID report descriptors: short items (section 6.2.2.2 of the USB HID 1.11
    Device Class Definition) and long items (section 6.2.2.3), and the values they carry. */
module HidItems {
  import opened Integers
  import Bits
  import opened Streams

  datatype Item =
    | Short(prefix: uint8, data: seq<uint8>)
    | Long(tag: uint8, payload: seq<uint8>)

  const LONG_ITEM: uint8 := 0xFE

  /** `hid_item_data_size`: size code 3 stands for four bytes. */
  function DataSize(prefix: uint8): nat {
    if prefix % 4 == 3 then 4 else prefix % 4
  }

  predicate Legal(item: Item) {
    match item
    case Short(prefix, data) => prefix != LONG_ITEM && |data| == DataSize(prefix)
    case Long(_, payload) => |payload| < 0x100
  }

  function Encode(item: Item): seq<uint8> {
    match item
    case Short(prefix, data) => [prefix] + data
    case Long(tag, payload) => [LONG_ITEM, |payload| % 0x100, tag] + payload
  }

  function Length(item: Item): (n: nat)
    ensures n == |Encode(item)|
  {
    match item
    case Short(_, data) => 1 + |data|
    case Long(_, payload) => 3 + |payload|
  }

  predicate AllLegal(items: seq<Item>) {
    forall i | 0 <= i < |items| :: Legal(items[i])
  }

  function EncodeAll(items: seq<Item>): seq<uint8> {
    if items == [] then [] else Encode(items[0]) + EncodeAll(items[1..])
  }

  /** The item at the front of a non-empty stream; None when the stream is truncated. */
  function NextItem(data: seq<uint8>): (item: Option<Item>)
    requires data != []
    ensures item.Some? ==> Length(item.value) <= |data|
  {
    if data[0] == LONG_ITEM then
      if |data| - 1 < 2 || |data| - 3 < data[1] then None
      else Some(Long(data[2], data[3..3 + data[1]]))
    else
      var size := DataSize(data[0]);
      if |data| - 1 < size then None else Some(Short(data[0], data[1..1 + size]))
  }

  function Tokenise(data: seq<uint8>): Option<seq<Item>> {
    if data == [] then Some([])
    else
      match NextItem(data)
      case None => None
      case Some(item) =>
        match Tokenise(data[Length(item)..])
        case None => None
        case Some(rest) => Some([item] + rest)
  }

  lemma NextIsPrefix(data: seq<uint8>)
    requires data != [] && NextItem(data).Some?
    ensures Legal(NextItem(data).value)
    ensures data == Encode(NextItem(data).value) + data[Length(NextItem(data).value)..]
  {
  }

  lemma NextOfEncoded(item: Item, rest: seq<uint8>)
    requires Legal(item)
    ensures NextItem(Encode(item) + rest) == Some(item)
    ensures (Encode(item) + rest)[Length(item)..] == rest
  {
    var data := Encode(item) + rest;
    match item
    case Short(prefix, bytes) =>
      assert data[1..1 + DataSize(prefix)] == bytes;
    case Long(tag, payload) =>
      assert data[3..3 + |payload|] == payload;
  }

  /** Encoding what was tokenised gives the same bytes, so no two streams share an item list. */
  lemma {:induction false} EncodeTokenised(data: seq<uint8>)
    requires Tokenise(data).Some?
    ensures AllLegal(Tokenise(data).value)
    ensures EncodeAll(Tokenise(data).value) == data
  {
    if data != [] {
      var item := NextItem(data).value;
      NextIsPrefix(data);
      EncodeTokenised(data[Length(item)..]);
      EncodeAllFront(item, Tokenise(data[Length(item)..]).value);
    }
  }

  lemma EncodeAllEmpty(items: seq<Item>)
    requires items == []
    ensures EncodeAll(items) == [] && AllLegal(items)
  {
  }

  lemma EncodeAllFront(item: Item, rest: seq<Item>)
    ensures EncodeAll([item] + rest) == Encode(item) + EncodeAll(rest)
  {
    assert ([item] + rest)[1..] == rest;
  }

  lemma {:induction false} EncodeAllAppend(items: seq<Item>, last: Item)
    ensures EncodeAll(items + [last]) == EncodeAll(items) + Encode(last)
  {
    hide Encode;
    if items == [] {
      assert items + [last] == [last] + [];
      EncodeAllFront(last, []);
    } else {
      EncodeAllAppend(items[1..], last);
      EncodeAllSecond(items, last);
      ConcatAssociative(Encode(items[0]), EncodeAll(items[1..]), Encode(last));
    }
  }

  lemma {:induction false} EncodeAllConcat(a: seq<Item>, b: seq<Item>)
    ensures EncodeAll(a + b) == EncodeAll(a) + EncodeAll(b)
  {
    hide Encode;
    if b == [] {
      assert a + b == a;
      assert EncodeAll(a) + [] == EncodeAll(a);
    } else {
      hide EncodeAll;
      var n := |b| - 1;
      EncodeAllConcat(a, b[..n]);
      EncodeAllAppend(a + b[..n], b[n]);
      EncodeAllAppend(b[..n], b[n]);
      assert a + b == (a + b[..n]) + [b[n]] && b == b[..n] + [b[n]];
    }
  }

  lemma EncodeAllSecond(items: seq<Item>, last: Item)
    requires items != []
    ensures EncodeAll(items + [last]) == Encode(items[0]) + EncodeAll(items[1..] + [last])
  {
    assert items + [last] == [items[0]] + (items[1..] + [last]);
    EncodeAllFront(items[0], items[1..] + [last]);
  }

  lemma EncodeAllNext(items: seq<Item>, n: nat)
    requires 0 < n <= |items|
    ensures EncodeAll(items[..n]) == EncodeAll(items[..n - 1]) + Encode(items[n - 1])
  {
    hide EncodeAll, Encode;
    EncodeAllAppend(items[..n - 1], items[n - 1]);
    assert items[..n] == items[..n - 1] + [items[n - 1]];
  }

  lemma TokeniseFront(item: Item, rest: seq<uint8>)
    requires Legal(item)
    ensures Tokenise(Encode(item) + rest)
      == (match Tokenise(rest) case None => None case Some(more) => Some([item] + more))
  {
    NextOfEncoded(item, rest);
  }

  /** A stream that starts with whole items is cut up behind them independently. */
  lemma {:induction false} TokeniseBehind(items: seq<Item>, rest: seq<uint8>)
    requires AllLegal(items)
    ensures Tokenise(EncodeAll(items) + rest)
      == (match Tokenise(rest) case None => None case Some(more) => Some(items + more))
  {
    hide Tokenise;
    if items == [] {
      assert EncodeAll(items) + rest == rest;
      if Tokenise(rest).Some? {
        assert items + Tokenise(rest).value == Tokenise(rest).value;
      }
    } else {
      var tail := EncodeAll(items[1..]) + rest;
      assert EncodeAll(items) + rest == Encode(items[0]) + tail;
      NextOfEncoded(items[0], tail);
      TokeniseFront(items[0], tail);
      TokeniseBehind(items[1..], rest);
      if Tokenise(rest).Some? {
        assert items == [items[0]] + items[1..];
        ConcatAssociative([items[0]], items[1..], Tokenise(rest).value);
      }
    }
  }

  /** Framing loses nothing: tokenising an encoded list of items gives the list back. */
  lemma TokeniseEncoded(items: seq<Item>)
    requires AllLegal(items)
    ensures Tokenise(EncodeAll(items)) == Some(items)
  {
    TokeniseBehind(items, []);
    assert EncodeAll(items) + [] == EncodeAll(items);
    assert items + [] == items;
  }

  /** `esp_logd_report_map`, the second walk over a descriptor: it logs item by item and stops
      at the first truncated one, so it reaches the end exactly on the streams that tokenise. */
  method LogReportMap(data: seq<uint8>) returns (logged: seq<Item>, offset: nat)
    ensures AllLegal(logged) && offset <= |data| && EncodeAll(logged) == data[..offset]
    ensures offset == |data| <==> Tokenise(data).Some?
    ensures offset == |data| ==> Tokenise(data) == Some(logged)
    ensures offset < |data| ==> NextItem(data[offset..]).None?
  {
    hide Tokenise, EncodeAll, AllLegal, Encode, NextItem, DataSize, Walked;
    logged, offset := [], 0;
    WalkStart(data);
    while offset < |data|
      invariant offset <= |data| && Walked(data, logged, offset)
    {
      NextAt(data, offset);
      var prefix := data[offset];
      var cursor := offset + 1;
      var item;
      if prefix == LONG_ITEM {
        if |data| - cursor < 2 {
          break;
        }
        var size, tag := data[cursor], data[cursor + 1];
        cursor := cursor + 2;
        if |data| - cursor < size {
          break;
        }
        item := Long(tag, data[cursor..cursor + size]);
        cursor := cursor + size;
      } else {
        var size := DataSize(prefix);
        if |data| - cursor < size {
          break;
        }
        item := Short(prefix, data[cursor..cursor + size]);
        cursor := cursor + size;
      }
      WalkOn(data, logged, offset, item);
      logged, offset := logged + [item], cursor;
    }
    WalkEnd(data, logged, offset);
  }

  /** The logged items are the bytes in front of the offset. */
  ghost predicate Walked(data: seq<uint8>, logged: seq<Item>, offset: nat) {
    offset <= |data| && AllLegal(logged) && EncodeAll(logged) == data[..offset]
  }

  lemma WalkStart(data: seq<uint8>)
    ensures Walked(data, [], 0)
  {
    EncodeAllEmpty([]);
  }

  lemma WalkOn(data: seq<uint8>, logged: seq<Item>, offset: nat, item: Item)
    requires Walked(data, logged, offset) && offset < |data| && NextItem(data[offset..]) == Some(item)
    ensures Walked(data, logged + [item], offset + Length(item))
  {
    hide AllLegal, EncodeAll, Encode, NextItem;
    WalkStep(data, logged, offset, item);
  }

  lemma WalkEnd(data: seq<uint8>, logged: seq<Item>, offset: nat)
    requires Walked(data, logged, offset) && (offset < |data| ==> NextItem(data[offset..]).None?)
    ensures AllLegal(logged) && offset <= |data| && EncodeAll(logged) == data[..offset]
    ensures offset == |data| <==> Tokenise(data).Some?
    ensures offset == |data| ==> Tokenise(data) == Some(logged)
  {
    hide AllLegal, EncodeAll, Encode, NextItem, Tokenise;
    StoppedWalk(data, logged, offset);
  }

  lemma StoppedWalk(data: seq<uint8>, logged: seq<Item>, offset: nat)
    requires AllLegal(logged) && offset <= |data| && EncodeAll(logged) == data[..offset]
    requires offset < |data| ==> NextItem(data[offset..]).None?
    ensures offset == |data| <==> Tokenise(data).Some?
    ensures offset == |data| ==> Tokenise(data) == Some(logged)
  {
    assert data == data[..offset] + data[offset..];
    TokeniseBehind(logged, data[offset..]);
    assert logged + [] == logged;
  }

  lemma SliceOfRest(data: seq<uint8>, offset: nat, from: nat, size: nat)
    requires offset + from + size <= |data|
    ensures data[offset + from..offset + from + size] == data[offset..][from..from + size]
  {
  }

  lemma TakeMore(data: seq<uint8>, offset: nat, piece: seq<uint8>)
    requires offset <= |data| && |piece| <= |data| - offset && data[offset..] == piece + data[offset..][|piece|..]
    ensures data[..offset + |piece|] == data[..offset] + piece
  {
    assert piece == data[offset..][..|piece|];
  }

  /** The item at a position of the stream, by its bytes. */
  lemma NextAt(data: seq<uint8>, offset: nat)
    requires offset < |data|
    ensures var prefix, left := data[offset], |data| - offset - 1;
      NextItem(data[offset..])
        == (if prefix == LONG_ITEM then
              if left < 2 || left - 2 < data[offset + 1] then None
              else Some(Long(data[offset + 2], data[offset + 3..offset + 3 + data[offset + 1]]))
            else if left < DataSize(prefix) then None
            else Some(Short(prefix, data[offset + 1..offset + 1 + DataSize(prefix)])))
  {
    var prefix, left := data[offset], |data| - offset - 1;
    if prefix == LONG_ITEM {
      if left >= 2 && left - 2 >= data[offset + 1] {
        SliceOfRest(data, offset, 3, data[offset + 1]);
      }
    } else if left >= DataSize(prefix) {
      SliceOfRest(data, offset, 1, DataSize(prefix));
    }
  }

  /** One step of the walk, in terms of the item at the front of the rest. */
  lemma WalkStep(data: seq<uint8>, logged: seq<Item>, offset: nat, item: Item)
    requires offset < |data| && AllLegal(logged) && EncodeAll(logged) == data[..offset]
    requires NextItem(data[offset..]) == Some(item)
    ensures AllLegal(logged + [item]) && offset + Length(item) <= |data|
    ensures EncodeAll(logged + [item]) == data[..offset + Length(item)]
  {
    hide NextItem, Encode, EncodeAll, Legal;
    EncodeAllAppend(logged, item);
    NextIsPrefix(data[offset..]);
    TakeMore(data, offset, Encode(item));
  }

  /** The little-endian number in the data bytes of an item. */
  function LittleEndian(data: seq<uint8>): nat {
    if data == [] then 0 else data[0] + 0x100 * LittleEndian(data[1..])
  }

  lemma {:induction false} LittleEndianAppend(data: seq<uint8>, b: uint8)
    ensures LittleEndian(data + [b]) == LittleEndian(data) + b * Pow2(8 * |data|)
  {
    if data == [] {
      assert data + [b] == [b];
      assert LittleEndian([b]) == b + 0x100 * LittleEndian([b][1..]);
    } else {
      LittleEndianAppend(data[1..], b);
      assert (data + [b])[1..] == data[1..] + [b];
      ShiftByte(|data| - 1);
      assert b * Pow2(8 * |data|) == 0x100 * (b * Pow2(8 * (|data| - 1)));
    }
  }

  lemma ShiftByte(n: nat)
    ensures Pow2(8 * (n + 1)) == 0x100 * Pow2(8 * n)
  {
    assert Pow2(8 * n + 8) == 2 * Pow2(8 * n + 7) == 4 * Pow2(8 * n + 6);
    assert Pow2(8 * n + 6) == 2 * Pow2(8 * n + 5) == 4 * Pow2(8 * n + 4);
    assert Pow2(8 * n + 4) == 2 * Pow2(8 * n + 3) == 4 * Pow2(8 * n + 2);
    assert Pow2(8 * n + 2) == 2 * Pow2(8 * n + 1) == 4 * Pow2(8 * n);
  }

  lemma {:induction false} LittleEndianBound(data: seq<uint8>)
    ensures LittleEndian(data) < Pow2(8 * |data|)
  {
    if data != [] {
      LittleEndianBound(data[1..]);
      ShiftByte(|data| - 1);
    }
  }

  /** `read_unsigned_item`: the loop that ORs the shifted bytes together. */
  method ReadUnsignedItem(data: seq<uint8>) returns (value: uint32)
    requires |data| <= 4
    ensures value == LittleEndian(data)
  {
    var sum: nat := 0;
    for i := 0 to |data|
      invariant sum == LittleEndian(data[..i])
    {
      LittleEndianAppend(data[..i], data[i]);
      assert data[..i + 1] == data[..i] + [data[i]];
      sum := sum + data[i] * Pow2(8 * i);
    }
    assert data[..|data|] == data;
    LittleEndianBound(data);
    Pow2Monotone(8 * |data|, 32);
    Pow2Values();
    value := sum;
  }

  /** `decode_signed_hid_item`. */
  function DecodeSigned(value: uint32, prefix: uint8): int {
    var bits := 8 * DataSize(prefix);
    if bits == 0 then 0
    else
      var masked := value % Pow2(bits);
      if (masked / Pow2(bits - 1)) % 2 == 1 then masked - Pow2(bits) else masked
  }

  function SignedBytes(v: int, n: nat): seq<uint8>
    decreases n
  {
    if n == 0 then [] else [v % 0x100] + SignedBytes(v / 0x100, n - 1)
  }

  lemma {:induction false} SignedBytesValue(v: int, n: nat)
    ensures |SignedBytes(v, n)| == n
    ensures LittleEndian(SignedBytes(v, n)) == v % Pow2(8 * n)
    decreases n
  {
    if n > 0 {
      SignedBytesValue(v / 0x100, n - 1);
      ShiftByte(n - 1);
      Bits.ModuloSplit(v, 0x100, Pow2(8 * (n - 1)));
      assert SignedBytes(v, n)[1..] == SignedBytes(v / 0x100, n - 1);
    }
  }

  /** Signed item data of one, two or four bytes decodes to the number it encodes; an item
      without data decodes to zero. */
  lemma SignedItemReadsBack(v: int, prefix: uint8)
    requires var bits := 8 * DataSize(prefix);
      if bits == 0 then v == 0 else 0 - Pow2(bits - 1) <= v < Pow2(bits - 1)
    ensures LittleEndian(SignedBytes(v, DataSize(prefix))) < 0x1_0000_0000
    ensures DecodeSigned(LittleEndian(SignedBytes(v, DataSize(prefix))), prefix) == v
  {
    var n := DataSize(prefix);
    SignedBytesValue(v, n);
    LittleEndianBound(SignedBytes(v, n));
    Pow2Monotone(8 * n, 32);
    Pow2Values();
    if n > 0 {
      var half := Pow2(8 * n - 1);
      var raw := if v < 0 then v + 2 * half else v;
      Bits.ModuloUnique(v, 2 * half, if v < 0 then -1 else 0, raw);
      Bits.ModuloUnique(raw, 2 * half, 0, raw);
      Bits.ModuloUnique(raw, half, if v < 0 then 1 else 0, if v < 0 then raw - half else raw);
    }
  }
}
