/** Packing values at the bit positions of a compiled schema, the inverse of what the report
    decoder reads (`read_bits_` under the loops of `parse_input_`). */
module ReportPacking {
  import opened Integers
  import opened Bits
  import opened HidItems
  import opened HidSchema
  import HidCompiler

  /** One scalar of a report, as the decoder addresses it. */
  datatype Slot = Slot(offset: nat, size: nat, signedValue: bool)

  /** The first `n` scalars of a field. */
  function FieldSlots(field: Field, n: nat): seq<Slot> {
    if n == 0 then []
    else FieldSlots(field, n - 1) + [Slot(field.Position(n - 1), field.reportSize, field.IsSigned())]
  }

  /** All scalars of the listed fields, constants and array slots included. */
  function ListedSlots(fields: seq<Field>, ids: seq<nat>): seq<Slot>
    requires forall i | 0 <= i < |ids| :: ids[i] < |fields|
  {
    if ids == [] then []
    else
      var last := fields[ids[|ids| - 1]];
      ListedSlots(fields, ids[..|ids| - 1]) + FieldSlots(last, last.reportCount)
  }

  /** The slots lie side by side and fill [start, end). */
  ghost predicate Contiguous(slots: seq<Slot>, start: nat, end: nat) {
    && (slots == [] ==> start == end)
    && (slots != [] ==> slots[0].offset == start && slots[|slots| - 1].offset + slots[|slots| - 1].size == end)
    && (forall i | 0 <= i < |slots| :: 1 <= slots[i].size <= 32)
    && (forall i, j | 0 <= i && j == i + 1 && j < |slots| :: slots[j].offset == slots[i].offset + slots[i].size)
  }

  /** The bits of the first `n` values, each in the width of its slot. */
  function PackUpTo(slots: seq<Slot>, values: seq<int>, n: nat): seq<bool>
    requires n <= |slots| == |values|
  {
    if n == 0 then [] else PackUpTo(slots, values, n - 1) + ToBits(values[n - 1], slots[n - 1].size)
  }

  function Pack(slots: seq<Slot>, values: seq<int>): seq<uint8>
    requires |slots| == |values|
  {
    BytesOf(PackUpTo(slots, values, |slots|))
  }

  lemma ContiguousConcat(a: seq<Slot>, b: seq<Slot>, start: nat, middle: nat, end: nat)
    requires Contiguous(a, start, middle) && Contiguous(b, middle, end)
    ensures Contiguous(a + b, start, end)
  {
  }

  lemma OneSlot(field: Field, n: nat)
    requires 1 <= field.reportSize <= 32 && n < field.reportCount
    ensures Contiguous([Slot(field.Position(n), field.reportSize, field.IsSigned())], field.Position(n),
                       field.Position(n + 1))
  {
    ScalarInsideField(field, n);
  }

  lemma NextSlot(field: Field, n: nat)
    ensures FieldSlots(field, n + 1)
      == FieldSlots(field, n) + [Slot(field.Position(n), field.reportSize, field.IsSigned())]
    ensures FieldSlots(field, 0) == []
  {
  }

  lemma NoSlots(start: nat)
    ensures Contiguous([], start, start)
  {
  }

  lemma {:induction false} FieldSlotsContiguous(field: Field, n: nat)
    requires 1 <= field.reportSize <= 32 && n <= field.reportCount
    ensures |FieldSlots(field, n)| == n
    ensures Contiguous(FieldSlots(field, n), field.bitOffset, field.Position(n))
    ensures forall i | 0 <= i < n ::
      FieldSlots(field, n)[i] == Slot(field.Position(i), field.reportSize, field.IsSigned())
  {
    hide Contiguous, FieldSlots, Field.Position;
    if n == 0 {
      NextSlot(field, 0);
      NoSlots(field.bitOffset);
      StartPosition(field);
    } else {
      FieldSlotsContiguous(field, n - 1);
      NextSlot(field, n - 1);
      OneSlot(field, n - 1);
      var one := [Slot(field.Position(n - 1), field.reportSize, field.IsSigned())];
      ContiguousConcat(FieldSlots(field, n - 1), one, field.bitOffset, field.Position(n - 1), field.Position(n));
    }
  }

  lemma StartPosition(field: Field)
    ensures field.Position(0) == field.bitOffset
  {
  }

  /** Where a listed field lies: at the start of the report or behind the field before it. */
  lemma ListedField(schema: Schema, report: Report, n: nat)
    requires WellFormed(schema) && Tiled(schema.fields, report) && n < |report.fieldIds|
    ensures forall i | 0 <= i < |report.fieldIds| :: report.fieldIds[i] < |schema.fields|
    ensures var field := schema.fields[report.fieldIds[n]];
      && 1 <= field.reportSize <= 32
      && field.bitOffset == (if n == 0 then 0 else schema.fields[report.fieldIds[n - 1]].End())
  {
    forall i | 0 <= i < |report.fieldIds|
      ensures report.fieldIds[i] < |schema.fields|
    {
      assert Describes(schema.fields, report, report.fieldIds[i]);
    }
    assert FieldOk(schema, report.fieldIds[n]);
  }

  lemma ListedNext(fields: seq<Field>, ids: seq<nat>, n: nat)
    requires n < |ids| && forall i | 0 <= i < |ids| :: ids[i] < |fields|
    ensures ListedSlots(fields, ids[..n + 1])
      == ListedSlots(fields, ids[..n]) + FieldSlots(fields[ids[n]], fields[ids[n]].reportCount)
  {
    hide FieldSlots;
    assert ids[..n + 1][..n] == ids[..n];
  }

  lemma NothingListed(fields: seq<Field>, ids: seq<nat>)
    requires forall i | 0 <= i < |ids| :: ids[i] < |fields|
    ensures ListedSlots(fields, ids[..0]) == [] && Contiguous([], 0, 0)
  {
  }

  lemma {:induction false} ListedSlotsContiguous(schema: Schema, report: Report, n: nat)
    requires WellFormed(schema) && Tiled(schema.fields, report) && n < |report.fieldIds|
    ensures forall i | 0 <= i < |report.fieldIds| :: report.fieldIds[i] < |schema.fields|
    ensures Contiguous(ListedSlots(schema.fields, report.fieldIds[..n + 1]), 0,
                       schema.fields[report.fieldIds[n]].End())
  {
    hide WellFormed, Tiled, ListedSlots, FieldSlots, Contiguous;
    var ids := report.fieldIds;
    ListedField(schema, report, n);
    var field := schema.fields[ids[n]];
    FieldSlotsContiguous(field, field.reportCount);
    assert field.Position(field.reportCount) == field.End();
    ListedNext(schema.fields, ids, n);
    if n == 0 {
      NothingListed(schema.fields, ids);
    } else {
      ListedSlotsContiguous(schema, report, n - 1);
    }
    ContiguousConcat(ListedSlots(schema.fields, ids[..n]), FieldSlots(field, field.reportCount),
                     0, field.bitOffset, field.End());
  }

  function ReportSlots(schema: Schema, r: nat): seq<Slot>
    requires r < |schema.reports|
    requires forall i | 0 <= i < |schema.reports[r].fieldIds| :: schema.reports[r].fieldIds[i] < |schema.fields|
  {
    ListedSlots(schema.fields, schema.reports[r].fieldIds)
  }

  /** The scalars of every report of a schema tile the report from bit 0 to its size. */
  lemma SlotsTileReport(schema: Schema, r: nat)
    requires WellFormed(schema) && r < |schema.reports|
    ensures forall i | 0 <= i < |schema.reports[r].fieldIds| :: schema.reports[r].fieldIds[i] < |schema.fields|
    ensures Contiguous(ReportSlots(schema, r), 0, schema.reports[r].bitSize)
  {
    var report := schema.reports[r];
    assert Tiled(schema.fields, report);
    var n := |report.fieldIds| - 1;
    ListedSlotsContiguous(schema, report, n);
    assert report.fieldIds[..n + 1] == report.fieldIds;
  }

  function OffsetAt(slots: seq<Slot>, end: nat, n: nat): nat
    requires n <= |slots|
  {
    if n < |slots| then slots[n].offset else end
  }

  lemma NextOffset(slots: seq<Slot>, end: nat, n: nat)
    requires Contiguous(slots, 0, end) && n < |slots|
    ensures OffsetAt(slots, end, n + 1) == OffsetAt(slots, end, n) + slots[n].size
    ensures 1 <= slots[n].size <= 32
  {
  }

  lemma {:induction false} OffsetsAscend(slots: seq<Slot>, end: nat, a: nat, b: nat)
    requires Contiguous(slots, 0, end) && a <= b <= |slots|
    ensures OffsetAt(slots, end, a) <= OffsetAt(slots, end, b)
    decreases b
  {
    if a < b {
      OffsetsAscend(slots, end, a, b - 1);
      NextOffset(slots, end, b - 1);
    }
  }

  lemma {:induction false} PackedSize(slots: seq<Slot>, values: seq<int>, end: nat, n: nat)
    requires n <= |slots| == |values| && Contiguous(slots, 0, end)
    ensures |PackUpTo(slots, values, n)| == OffsetAt(slots, end, n)
  {
    if n > 0 {
      PackedSize(slots, values, end, n - 1);
      NextOffset(slots, end, n - 1);
    }
  }

  /** Each packed value sits at its own offset. */
  lemma {:induction false} PackedAt(slots: seq<Slot>, values: seq<int>, end: nat, n: nat, k: nat)
    requires k < n <= |slots| == |values| && Contiguous(slots, 0, end)
    ensures slots[k].offset + slots[k].size <= |PackUpTo(slots, values, n)|
    ensures PackUpTo(slots, values, n)[slots[k].offset..slots[k].offset + slots[k].size]
      == ToBits(values[k], slots[k].size)
  {
    hide ToBits;
    PackedSize(slots, values, end, n - 1);
    if k < n - 1 {
      PackedAt(slots, values, end, n - 1, k);
      SliceOfFirst(PackUpTo(slots, values, n - 1), ToBits(values[n - 1], slots[n - 1].size),
                   slots[k].offset, slots[k].offset + slots[k].size);
    }
  }

  lemma SliceOfFirst<T>(a: seq<T>, b: seq<T>, from: nat, to: nat)
    requires from <= to <= |a|
    ensures (a + b)[from..to] == a[from..to]
  {
  }

  ghost predicate AllFit(slots: seq<Slot>, values: seq<int>) {
    && |slots| == |values|
    && forall k | 0 <= k < |slots| :: 1 <= slots[k].size && Fits(values[k], slots[k].size, slots[k].signedValue)
  }

  lemma SliceOfBytes(bits: seq<bool>, offset: nat, size: nat)
    requires offset + size <= |bits|
    ensures BitSlice(BytesOf(bits), offset, size) == bits[offset..offset + size]
  {
    forall i | 0 <= i < size
      ensures BitSlice(BytesOf(bits), offset, size)[i] == bits[offset + i]
    {
      BitOfBytes(bits, offset + i);
    }
  }

  lemma SlotReadsBack(slots: seq<Slot>, values: seq<int>, end: nat, k: nat)
    requires Contiguous(slots, 0, end) && AllFit(slots, values) && k < |slots|
    ensures ReadField(Pack(slots, values), slots[k].offset, slots[k].size, slots[k].signedValue) == Some(values[k])
  {
    var bits, slot := PackUpTo(slots, values, |slots|), slots[k];
    PackedAt(slots, values, end, |slots|, k);
    SliceOfBytes(bits, slot.offset, slot.size);
    PackedValueReadsBack(values[k], slot.size, slot.signedValue);
  }

  /** Round trip: for every accepted descriptor, every report of it and all values that fit
      their scalars, the packed report has the announced size and reads back as those values. */
  lemma PackedReportReadsBack(data: seq<uint8>, r: nat, values: seq<int>)
    requires HidCompiler.Compile(data).Some?
    requires r < |HidCompiler.Compile(data).value.reports|
    requires forall i | 0 <= i < |HidCompiler.Compile(data).value.reports[r].fieldIds| ::
      HidCompiler.Compile(data).value.reports[r].fieldIds[i] < |HidCompiler.Compile(data).value.fields|
    requires AllFit(ReportSlots(HidCompiler.Compile(data).value, r), values)
    ensures var schema := HidCompiler.Compile(data).value; var slots := ReportSlots(schema, r);
      && |Pack(slots, values)| == schema.reports[r].ByteSize()
      && forall k | 0 <= k < |slots| ::
           ReadField(Pack(slots, values), slots[k].offset, slots[k].size, slots[k].signedValue) == Some(values[k])
  {
    HidCompiler.AcceptedIsWellFormed(data);
    var schema := HidCompiler.Compile(data).value;
    var slots := ReportSlots(schema, r);
    SlotsTileReport(schema, r);
    PackedSize(slots, values, schema.reports[r].bitSize, |slots|);
    forall k | 0 <= k < |slots|
      ensures ReadField(Pack(slots, values), slots[k].offset, slots[k].size, slots[k].signedValue) == Some(values[k])
    {
      SlotReadsBack(slots, values, schema.reports[r].bitSize, k);
    }
  }

  /** Once the length check has passed, no read of a scalar of the report can fail. */
  lemma NoReadFails(schema: Schema, r: nat, payload: seq<uint8>, i: nat, index: nat)
    requires WellFormed(schema) && r < |schema.reports| && i < |schema.reports[r].fieldIds|
    requires |payload| >= schema.reports[r].ByteSize()
    ensures schema.reports[r].fieldIds[i] < |schema.fields|
    ensures var field := schema.fields[schema.reports[r].fieldIds[i]];
      index < field.reportCount ==>
      ReadField(payload, field.Position(index), field.reportSize, field.IsSigned()).Some?
  {
    var report := schema.reports[r];
    assert Tiled(schema.fields, report);
    assert Describes(schema.fields, report, report.fieldIds[i]);
    var field := schema.fields[report.fieldIds[i]];
    assert FieldOk(schema, report.fieldIds[i]);
    FieldBeforeEnd(schema.fields, report, i);
    if index < field.reportCount {
      ScalarInsideField(field, index);
    }
  }

  // ---------- the other direction ----------

  /** The values the decoder reads at the given slots. */
  function ReadSlots(slots: seq<Slot>, payload: seq<uint8>): seq<int>
    requires forall k | 0 <= k < |slots| ::
      ReadField(payload, slots[k].offset, slots[k].size, slots[k].signedValue).Some?
  {
    seq(|slots|, k requires 0 <= k < |slots| =>
      ReadField(payload, slots[k].offset, slots[k].size, slots[k].signedValue).value)
  }

  lemma {:induction false} RepackedBits(slots: seq<Slot>, end: nat, payload: seq<uint8>, n: nat)
    requires Contiguous(slots, 0, end) && end <= 8 * |payload| && n <= |slots|
    requires forall k | 0 <= k < |slots| ::
      ReadField(payload, slots[k].offset, slots[k].size, slots[k].signedValue).Some?
    ensures OffsetAt(slots, end, n) <= 8 * |payload|
    ensures PackUpTo(slots, ReadSlots(slots, payload), n) == BitSlice(payload, 0, OffsetAt(slots, end, n))
  {
    hide ToBits, BitAt, ReadField;
    OffsetsAscend(slots, end, n, |slots|);
    if n > 0 {
      var slot := slots[n - 1];
      RepackedBits(slots, end, payload, n - 1);
      NextOffset(slots, end, n - 1);
      ReadValuePacksBack(payload, slot.offset, slot.size, slot.signedValue);
      BitSliceConcat(payload, slot.offset, slot.size);
    }
  }

  lemma BitSliceConcat(payload: seq<uint8>, a: nat, b: nat)
    requires a + b <= 8 * |payload|
    ensures BitSlice(payload, 0, a + b) == BitSlice(payload, 0, a) + BitSlice(payload, a, b)
  {
  }

  lemma {:induction false} BitOfToBits(v: int, n: nat, i: nat)
    requires i < n
    ensures ToBits(v, n)[i] <==> (v / Pow2(i)) % 2 == 1
    decreases n
  {
    if i > 0 {
      BitOfToBits(v / 2, n - 1, i - 1);
      DivideTwice(v, 2, Pow2(i - 1));
    }
  }

  /** Bytes are their bits: a payload whose padding is zero is rebuilt from its report bits. */
  lemma BytesFromBits(payload: seq<uint8>, size: nat)
    requires |payload| == (size + 7) / 8
    requires forall k | size <= k < 8 * |payload| :: !BitAt(payload, k)
    ensures BytesOf(BitSlice(payload, 0, size)) == payload
  {
    var bits := BitSlice(payload, 0, size);
    forall j | 0 <= j < |payload|
      ensures BytesOf(bits)[j] == payload[j]
    {
      OctetIsByte(payload, bits, size, j);
    }
  }

  lemma OctetIsByte(payload: seq<uint8>, bits: seq<bool>, size: nat, j: nat)
    requires j < |payload| == (size + 7) / 8 && bits == BitSlice(payload, 0, size)
    requires forall k | size <= k < 8 * |payload| :: !BitAt(payload, k)
    ensures ByteOf(bits, j) == payload[j]
  {
    hide ToBits, BitAt, FromBits, Pow2;
    var octet := seq(8, i requires 0 <= i < 8 => 8 * j + i < |bits| && bits[8 * j + i]);
    forall i | 0 <= i < 8
      ensures octet[i] == ToBits(payload[j], 8)[i]
    {
      OctetBit(payload, bits, size, j, i);
    }
    assert octet == ToBits(payload[j], 8);
    FromToBits(payload[j], 8);
    Pow2Values();
  }

  lemma OctetBit(payload: seq<uint8>, bits: seq<bool>, size: nat, j: nat, i: nat)
    requires j < |payload| == (size + 7) / 8 && bits == BitSlice(payload, 0, size) && i < 8
    requires forall k | size <= k < 8 * |payload| :: !BitAt(payload, k)
    ensures (8 * j + i < |bits| && bits[8 * j + i]) == ToBits(payload[j], 8)[i]
  {
    var k := 8 * j + i;
    BitOfToBits(payload[j], 8, i);
    assert k / 8 == j && k % 8 == i;
    assert BitAt(payload, k) <==> ToBits(payload[j], 8)[i];
  }

  // ---------- whole bytes ----------

  lemma {:induction false} FromBitsConcat(a: seq<bool>, b: seq<bool>)
    ensures FromBits(a + b) == FromBits(a) + Pow2(|a|) * FromBits(b)
    decreases a
  {
    if a == [] {
      assert a + b == b;
    } else {
      var p, x := Pow2(|a| - 1), FromBits(b);
      FromBitsConcat(a[1..], b);
      assert (a + b)[1..] == a[1..] + b;
      DoubleTimes(p, x);
    }
  }

  lemma DoubleTimes(p: nat, x: nat)
    ensures 2 * (p * x) == (2 * p) * x
  {
  }

  lemma OneByte(data: seq<uint8>, k: nat)
    requires k < |data|
    ensures FromBits(BitSlice(data, 8 * k, 8)) == data[k]
  {
    hide FromBits, Pow2, ToBits;
    var bits := BitSlice(data, 8 * k, 8);
    forall i | 0 <= i < 8
      ensures bits[i] == ToBits(data[k], 8)[i]
    {
      BitOfToBits(data[k], 8, i);
      assert (8 * k + i) / 8 == k && (8 * k + i) % 8 == i;
      assert BitAt(data, 8 * k + i) == ((data[k] / Pow2(i)) % 2 == 1);
    }
    assert bits == ToBits(data[k], 8);
    FromToBits(data[k], 8);
    Pow2Values();
  }

  lemma {:induction false} BytesAreLittleEndian(data: seq<uint8>, k: nat, n: nat)
    requires k + n <= |data|
    ensures FromBits(BitSlice(data, 8 * k, 8 * n)) == LittleEndian(data[k..k + n])
    decreases n
  {
    hide BitAt, Pow2;
    if n > 0 {
      var first, rest := BitSlice(data, 8 * k, 8), BitSlice(data, 8 * (k + 1), 8 * (n - 1));
      assert BitSlice(data, 8 * k, 8 * n) == first + rest;
      FromBitsConcat(first, rest);
      OneByte(data, k);
      BytesAreLittleEndian(data, k + 1, n - 1);
      Pow2Values();
      assert data[k..k + n][1..] == data[k + 1..k + n];
    }
  }

  /** A scalar of whole bytes at a byte boundary is the little-endian number in those bytes. */
  lemma WholeBytesRead(data: seq<uint8>, k: nat, n: nat)
    requires 1 <= n <= 4 && k + n <= |data|
    ensures ReadField(data, 8 * k, 8 * n, false) == Some(LittleEndian(data[k..k + n]))
  {
    hide BitSlice, FromBits, LittleEndian;
    BytesAreLittleEndian(data, k, n);
  }

  /** Reading all scalars of a report and packing them again gives the payload back: together
      the scalars miss no bit but the padding. */
  lemma ReadReportPacksBack(schema: Schema, r: nat, payload: seq<uint8>)
    requires WellFormed(schema) && r < |schema.reports|
    requires |payload| == schema.reports[r].ByteSize()
    requires forall k | schema.reports[r].bitSize <= k < 8 * |payload| :: !BitAt(payload, k)
    ensures forall i | 0 <= i < |schema.reports[r].fieldIds| :: schema.reports[r].fieldIds[i] < |schema.fields|
    ensures forall k | 0 <= k < |ReportSlots(schema, r)| ::
      ReadField(payload, ReportSlots(schema, r)[k].offset, ReportSlots(schema, r)[k].size,
                ReportSlots(schema, r)[k].signedValue).Some?
    ensures Pack(ReportSlots(schema, r), ReadSlots(ReportSlots(schema, r), payload)) == payload
  {
    SlotsTileReport(schema, r);
    var slots, size := ReportSlots(schema, r), schema.reports[r].bitSize;
    forall k | 0 <= k < |slots|
      ensures ReadField(payload, slots[k].offset, slots[k].size, slots[k].signedValue).Some?
    {
      OffsetsAscend(slots, size, k + 1, |slots|);
      NextOffset(slots, size, k);
    }
    RepackedBits(slots, size, payload, |slots|);
    BytesFromBits(payload, size);
  }
}
