# A verified model of ble_client_hid

`ble_client_hid` is an ESPHome component that connects to a Bluetooth Low Energy HID peripheral,
compiles its HID report descriptors, decodes its input reports and publishes them as ordered,
optionally coalesced events. This project models its algorithms and state machines in Dafny and
proves what they promise.

The modules follow the component:

- `Integers`, `Streams`, `Bits`: fixed-width integers, the wrapping clock, folds over value streams,
  bit-level packing.
- `HidItems`, `HidSchema`, `HidCompiler`, `HidItemMeaning`, `HidNesting`, `HidPrinter`,
  `HidDecompiler`: the report descriptor compiler of hid_parser.cpp as a machine over items (sections 6.2.2.2 to 6.2.2.8 of the USB
  HID 1.11 Device Class Definition), what each item means in terms of its bytes, the schemas it yields,
  a descriptor printer that it inverts, and the way back from a descriptor to a description.
- `ReportPacking`, `HidDecoder`, `HidReplay`, `HidArrays`, `HidIsolation`, `HidPacked`: what one report,
  and what whole runs of reports, do to the decoder.
- `HidReportMap`: the class `HIDReportMap`, whose loops compile and decode in place; each method is
  tied to the functions above.
- `BootDecoder`: the class `HIDBootReportDecoder` and its runs (Appendix B of HID 1.11).
- `EventBuffer`, `Coalescing`, `CoalescingRefinement`, `CoalescingRate`, `CoalescingLatency`: the
  ordered event buffer, the sampling window, their agreement with the uncoalesced stream, and bounds on
  rate and waiting time.
- `ReportQueue`: the drop-oldest FIFO between notification callback and main loop.
- `EndToEnd`, `SystemRate`, `KeyStreams`, `KeyTotals`, `Delivered`, `DeliveredPacked`, `DeliveredBoot`,
  `InputComponent`: decoders and pipeline composed, from payload bytes to emitted events, and the input
  half of the class `BLEClientHID`.
- `Subscription`, `SetupPlan`, `SetupCoverage`, `Setup`, `SetupProofs`, `SetupFallback`,
  `SetupTermination`, `SetupComponent`: the connection setup protocol as steps over loop ticks and GATT
  callbacks, its safety and termination, and the setup half of the class `BLEClientHID`.
- `SetupDatabase`, `SetupReferences`, `SetupGrounds`, `SetupAnswers`, `SetupWork`, `SetupFaults`,
  `SetupExample`: the same protocol seen from outside: what it asks for in terms of the GATT database,
  what it knows in terms of the answers, exactly which faults degrade it, and a whole connection.
- `SetupInput`: what setup leaves behind is what the decoders work with.
- `UsageTables`: the generated usage index and its binary searches.

## Main results

1. Descriptors round trip: `HidPrinter.PrintedDescriptorReadsBack`. Whatever is printed from a
   description, with Report IDs or without and of any length, the compiler's loop and final checks read
   back as exactly that description, or refuse exactly when it breaks a limit or the nesting; the
   compiler itself adds only its limit of 4096 bytes. Conversely every accepted descriptor has such a
   description (`HidDecompiler.AcceptedIsDescribed`, `NormalFormReadsBack`). The printer is not thrifty:
   `HidDecompiler.LongNormalForms` gives accepted descriptors whose printed form exceeds the 4096
   bytes. Every accepted descriptor is well formed (`HidCompiler.AcceptedIsWellFormed`), with Push/Pop,
   collections and local items nested as the standard says (`HidNesting`), and every item means what its
   bytes say (`HidItemMeaning`).
2. Reports round trip: `ReportPacking.PackedReportReadsBack` and `ReadReportPacksBack`.
3. Decoding replays the device: `HidReplay`, `HidArrays`, `BootDecoder.SignalReplay`, over any run and
   any interleaving, with the non-interference results of `HidIsolation`: what carries a report's id is
   what a decoder of that report alone would have emitted (`HidIsolation.ReportReplay`). `HidPacked`
   joins this with packing: the emissions of a control are determined by the values that were sent for it,
   its logical range and its usages.
4. Coalescing refines the plain stream: `CoalescingRefinement.RunIsFaithful` and its consequences at
   barriers; `CoalescingRate.RunIsRated` bounds the rate in real time, and
   `CoalescingLatency.PendingLeaves` the time for which a value can be pending.
5. End to end, `Delivered` says for every scalar, array and boot axis what the emitted events tell
   about the payload bytes, in front of every barrier and at the end, through decoding, coalescing and
   all wraps of the clock; `DeliveredPacked` says it in terms of the values that were sent, and
   `DeliveredBoot` for the keys and buttons of boot reports.
6. READY is honest (`SetupProofs.ReadyIsHonest`, `SetupCoverage.ReadyMeansUsable`) and exact: setup ends
   READY if and only if none of the faults listed in `SetupFaults.Fault` has happened
   (`SetupFaults.ReadyMeansFaultless`), and unless it was cut short it has tried everything that the
   database calls for (`SetupWork.WantedIsTried`). What setup stores fits the decoders
   (`SetupInput.StoredMapsOk`, `ReadyDecodes`), and setup ends (`SetupTermination.SetupSettles`),
   whatever the peripheral and the stack do. `SetupExample` runs a connection from Connect to READY and on
   to its first event.
7. The queue conserves reports (`ReportQueue.RunConserves`), and the flattened usage index is the plain
   lookup (`UsageTables.FindUsage`).

## Conventions

A method that the source writes as a loop or as an update of an object is a method here, proved
against a function of its inputs or of the old state; the theorems over runs are about those
functions. Results of the Bluetooth stack, allocation of time to the main loop and the clocks are
inputs. A clock is real time; the component sees it modulo 2^32 and computes with `uint32` values.
`History` in `Setup` and ghost fields of the classes record what has happened and are never read by a
step.

An emission carries the clock readings around it, the last one in front of it and the next one behind
it. The sampling window counts from the reading behind the emission that opens it, and that is where the
rate bound of `CoalescingRate` starts: the later emission of a key happens after a reading that is a
whole interval behind it. Only the window behind a timer flush counts from the reading that found the
flush due, so a timer flush counts as happening at that reading. The bound is for nonzero intervals;
interval zero switches sampling off.

One assumption about the environment is needed for the setup theorems and is stated as
`SetupProofs.Expected`: service discovery does not complete while a read or a subscription is in
flight. The handler (components/ble_client_hid/ble_client_hid.cpp:1033-1041) does not check its phase.
`SetupProofs.DiscoveryIsExact` shows that nothing less will do: behind a discovery event of either
outcome, terminal phases stay clean exactly when nothing was in flight.
`SetupProofs.UncleanAfterDiscovery` gives the way from every other discovery event into an unclean
terminal phase, and `SetupProofs.LateDiscoveryRun` a whole run that takes it.

Where code and documentation disagree, the model follows the code:

- README.md:300-303 promises a raw envelope for short reports. On the descriptor path `recognized` is
  set in front of the length check (components/ble_client_hid/hid_parser.cpp:566-570), so a short
  report emits nothing. `EndToEnd.EnvelopeUnlessTooShort` gives the exact condition and
  `EndToEnd.ShortReportIsSilent` a concrete descriptor and report.
- The coalescing key has no characteristic handle
  (components/ble_client_hid/ble_client_hid.cpp:1247-1249), so boot mice of one service share their
  axis keys; `Delivered.BootMotionConserved` says what their total is.

## Model

| member | source | states |
|---|---|---|
| `Integers.ElapsedIsRealTime` | components/ble_client_hid/ble_client_hid.cpp:60-62 | A timeout that the wrapping 32-bit subtraction reports has really passed, however often the clock wrapped; below one full wrap it is reported exactly when it has passed |
| `Bits.ReadBits` | components/ble_client_hid/hid_parser.cpp:441-454 | The bit loop reads the little-endian bits at the offset and sign-extends them; it fails exactly for width 0, widths above 32 and bits outside the data |
| `Bits.WidenMeaning` | components/ble_client_hid/hid_parser.cpp:450-452 | The casts behind the loop are two's complement sign extension for every width from 1 to 32, and the result fits that width and signedness |
| `Bits.PackedValueReadsBack` | components/ble_client_hid/hid_parser.cpp:441-454 | Every value that fits a width survives being packed into that many bits and read back |
| `Bits.ReadValuePacksBack` | components/ble_client_hid/hid_parser.cpp:441-454 | Packing a value that was read reproduces the bits it was read from |
| `HidItems.TokeniseEncoded` | components/ble_client_hid/hid_parser.cpp:198-219 | Sections 6.2.2.2 and 6.2.2.3 of HID 1.11: cutting up an encoded list of legal short and long items gives the list back |
| `HidItems.EncodeTokenised` | components/ble_client_hid/hid_parser.cpp:198-219 | Re-encoding the items of any stream that can be cut up gives the same bytes; all items are legal |
| `HidItems.LogReportMap` | components/ble_client_hid/hid_parser.cpp:406-439 | The second item walk logs the whole items in front of the first truncated one, and reaches the last byte exactly on streams of whole items |
| `HidItems.ReadUnsignedItem` | components/ble_client_hid/hid_parser.cpp:39-44 | The OR loop yields the little-endian number of up to four data bytes |
| `HidItems.SignedItemReadsBack` | components/ble_client_hid/hid_item_value.h:10-27 | Signed item data of 0, 1, 2 or 4 bytes decodes to the number that was encoded |
| `HidSchema.EveryBitHasOneField` | components/ble_client_hid/hid_parser.cpp:350-380 | Every bit of a tiled report belongs to exactly one of its fields |
| `HidSchema.FieldListedOnce` | components/ble_client_hid/hid_parser.cpp:188-196 | Each field is listed in one place of one report, the one with its kind and id |
| `HidSchema.ApplicationUsageIsNearest` | components/ble_client_hid/hid_parser.cpp:158-167 | The climb over parents ends and yields the usage of the nearest enclosing application collection, or none when there is none |
| `HidCompiler.RunKeeps` | components/ble_client_hid/hid_parser.cpp:198-391 | No item of any stream breaks the schema invariant, the stack limits or the range of global values |
| `HidCompiler.AcceptedIsWellFormed` | components/ble_client_hid/hid_parser.cpp:171-404 | Every accepted descriptor yields unique reports, fields that tile their report from bit 0 without gap or overlap, ids equal to indices, parents below children, and all limits: reports, fields, collections, report bits, field counts and a collection forest of at most 32 levels |
| `HidCompiler.AcceptedIsWholeItems` | components/ble_client_hid/hid_parser.cpp:198-219 | What the compiler accepts is a sequence of whole items up to the last byte, so the log walk consumes it too |
| `HidItemMeaning.UsageItemsMean` | components/ble_client_hid/hid_parser.cpp:264-274 | Usage, Usage Minimum and Usage Maximum with up to two data bytes name that usage on the current Usage Page; with four bytes the halves are usage and page |
| `HidItemMeaning.UsageIsWhole` | components/ble_client_hid/hid_parser.cpp:58-62 | No part of the number is lost: the two halves make the four bytes, fewer bytes are the usage itself |
| `HidItemMeaning.GlobalItemsMean` | components/ble_client_hid/hid_parser.cpp:222-250 | Usage Page, ranges, unit, exponent, size and count take the little-endian or two's complement number of their bytes; a maximum is signed exactly behind a negative minimum |
| `HidItemMeaning.StackItemsMean` | components/ble_client_hid/hid_parser.cpp:250-263 | Report ID is 1 to 255, Push saves and Pop restores the global state, sixteen deep |
| `HidItemMeaning.IndexItemsMean` | components/ble_client_hid/hid_parser.cpp:275-294 | String and designator items by their tags |
| `HidItemMeaning.DelimiterMeans` | components/ble_client_hid/hid_parser.cpp:295-310 | A delimiter opens a set of alternative usages or returns to the first set; anything else is refused |
| `HidItemMeaning.CollectionMeans` | components/ble_client_hid/hid_parser.cpp:311-328 | A collection has the enclosing one as parent and its first usage, or the usage minimum, as usage; limits of 128 and 32 |
| `HidItemMeaning.EndMeans` | components/ble_client_hid/hid_parser.cpp:329-333 | End Collection needs an open collection and closes it |
| `HidItemMeaning.FieldMeans` | components/ble_client_hid/hid_parser.cpp:334-383 | A field takes its numbers from the global and its usages from the local state, its kind from the item, and bits 0, 1 and 2 of the data say constant, variable and relative |
| `HidItemMeaning.FieldIsAccepted` | components/ble_client_hid/hid_parser.cpp:336-348 | A Main item is accepted exactly with 1 to 32 bits, 1 to 4096 scalars, no open delimiter, and within 512 fields, 64 reports and 32768 bits of its report |
| `HidItemMeaning.UnknownMeans` | components/ble_client_hid/hid_parser.cpp:384-391 | Every other short item only leaves a note; Main items among them close the local state |
| `HidItemMeaning.AcceptedExactly` | components/ble_client_hid/hid_parser.cpp:171-404 | A descriptor is accepted exactly if it has 1 to 4096 bytes of whole items, none refused, all collections closed and a report defined |
| `HidPrinter.PrintedDescriptorReadsBack` | components/ble_client_hid/hid_parser.cpp:171-404 | Round trip of descriptors of any length: for any description of fields (with Report IDs, without or mixed), usages, alternatives, ranges, units, indices and nested collections, the printed bytes are whole items that the loop and the final checks read back as exactly that schema, and refuse exactly when a limit or the nesting is broken; the compiler adds only its limit on the number of bytes |
| `HidDecompiler.AcceptedIsDescribed` | components/ble_client_hid/hid_parser.cpp:171-404 | The other direction: the fields, collections and End Collections that the items of an accepted descriptor complete are a description of its reports, fields and collections |
| `HidDecompiler.NormalFormReadsBack` | components/ble_client_hid/hid_parser.cpp:171-404 | Taking an accepted descriptor apart and printing the parts again gives items that are read back as the same reports, fields and collections; the compiler takes the printed form exactly when it has at most 4096 bytes |
| `HidDecompiler.LongNormalForms` | components/ble_client_hid/hid_parser.cpp:171-177 | For every n from 64 to 512 a descriptor of 2 * n + 4 bytes with n fields is accepted, and its printed form is refused for its length |
| `HidPrinter.GlobalsRun` | components/ble_client_hid/hid_parser.cpp:221-254 | Section 6.2.2.7: the global items of a field set range, unit, size and count to the described values, whatever they were before and whatever signs the range has |
| `HidPrinter.LocalsRun` | components/ble_client_hid/hid_parser.cpp:264-310 | Section 6.2.2.8: usages, delimited alternatives, usage range, designators and strings end up in the local state as described |
| `HidPrinter.SettingsRun` | components/ble_client_hid/hid_parser.cpp:221-310 | Push, global items, an optional Report ID and local items together put the machine into exactly the global and local state that the field describes; without a Report ID item the id is 0 |
| `HidNesting.PushPopRestores` | components/ble_client_hid/hid_parser.cpp:255-263 | Between a Push and its matching Pop anything may be set: afterwards the global state and the stack are as before the Push |
| `HidNesting.CollectionForest` | components/ble_client_hid/hid_parser.cpp:311-333 | In every accepted descriptor Collection and End Collection form a balanced word, and its tree is the parent relation of the collections |
| `HidNesting.FieldScope` | components/ble_client_hid/hid_parser.cpp:334-383 | What a field says about usages, ranges and units depends only on the globals in front of the previous Main item and the items since |
| `ReportPacking.PackedReportReadsBack` | components/ble_client_hid/hid_parser.cpp:346-380 | For every accepted descriptor, each of its reports and all values that fit, packing at the schema's bit positions gives a report of the announced size from which every value is read back |
| `ReportPacking.ReadReportPacksBack` | components/ble_client_hid/hid_parser.cpp:441-454 | Reading all scalars of a report and packing them again reproduces the payload, up to padding bits |
| `ReportPacking.NoReadFails` | components/ble_client_hid/hid_parser.cpp:567-573 | Once the length check has passed, no read of any scalar of the report can fail |
| `ReportPacking.SlotsTileReport` | components/ble_client_hid/hid_parser.cpp:355-379 | The scalars of every report tile it from bit 0 to its size |
| `ReportPacking.WholeBytesRead` | components/ble_client_hid/hid_parser.cpp:441-454 | A field of whole bytes at a byte boundary is the little-endian number of these bytes |
| `HidReportMap.HIDReportMap.constructor` | components/ble_client_hid/hid_parser.h:138-185 | A new map has an empty schema and no runtime state |
| `HidReportMap.HIDReportMap.FindReport` | components/ble_client_hid/hid_parser.cpp:147-152 | The first report with the kind and id, if any |
| `HidReportMap.HIDReportMap.FindOrAddReport` | components/ble_client_hid/hid_parser.cpp:188-196 | Finds the report, appends an empty one, or fails when the table is full, and changes nothing else |
| `HidReportMap.HIDReportMap.AddCollection` | components/ble_client_hid/hid_parser.cpp:311-328 | Collection items act on the object as in the item machine, limits included |
| `HidReportMap.HIDReportMap.AddFieldItem` | components/ble_client_hid/hid_parser.cpp:334-383 | Input, Output and Feature items act on the object as in the item machine, all rejections included |
| `HidReportMap.HIDReportMap.ApplyShortItem` | components/ble_client_hid/hid_parser.cpp:221-390 | The tag switch acts on object, globals, locals and stacks as the item machine does |
| `HidReportMap.HIDReportMap.ParseReportMapData` | components/ble_client_hid/hid_parser.cpp:171-404 | The byte loop returns a map for exactly the descriptors that compile, with exactly the compiled schema |
| `HidReportMap.HIDReportMap.FindApplicationUsage` | components/ble_client_hid/hid_parser.cpp:158-167 | The loop over parents computes the application usage of a collection |
| `HidReportMap.HIDReportMap.ReadScalar` | components/ble_client_hid/hid_parser.cpp:471-472 | One scalar of a field read at its bit position with the signedness of its logical minimum |
| `HidReportMap.HIDReportMap.ParseVariable` | components/ble_client_hid/hid_parser.cpp:468-501 | The scalar loop emits the changed or moved in-range scalars and stores just those |
| `HidReportMap.HIDReportMap.ReadSlots` | components/ble_client_hid/hid_parser.cpp:503-515 | The slot loop collects the asserted usages ordered as in the multimap |
| `HidReportMap.HIDReportMap.ParseArray` | components/ble_client_hid/hid_parser.cpp:503-542 | The two matching loops emit presses and releases and store the current usages |
| `HidReportMap.HIDReportMap.ParseField` | components/ble_client_hid/hid_parser.cpp:459-543 | One field: constant fields do nothing, others update only their own runtime |
| `HidReportMap.HIDReportMap.ParseInput` | components/ble_client_hid/hid_parser.cpp:456-545 | All fields of a report in order; the runtime stays consistent with the schema |
| `HidReportMap.HIDReportMap.Parse` | components/ble_client_hid/hid_parser.cpp:547-577 | Status, recognition, values and new runtime state for every source and payload, error paths included |
| `HidReportMap.HIDReportMap.ResetRuntimeState` | components/ble_client_hid/hid_parser.cpp:169-169 | Forgets all runtime state |
| `HidReplay.ScalarReplay` | components/ble_client_hid/hid_parser.cpp:468-501 | Over any run of deliveries, the values emitted at a scalar's key are exactly the changes (absolute) or non-zero motions (relative) of the in-range values it was sent |
| `HidReplay.AbsoluteReplay` | components/ble_client_hid/hid_parser.cpp:476-498 | Folding the emissions of an absolute scalar gives its last in-range value; successive emissions differ |
| `HidReplay.RelativeReplay` | components/ble_client_hid/hid_parser.cpp:476-498 | The emissions of a relative scalar add up to all its in-range inputs; no zero is emitted |
| `HidReplay.DeliveryAtKey` | components/ble_client_hid/hid_parser.cpp:547-577 | One delivery emits at a field's key what that field alone would emit, and nothing when it is decoded as another report or rejected |
| `HidArrays.UnmatchedHeld` | components/ble_client_hid/hid_parser.cpp:516-541 | The entries that find no match are the multiset difference |
| `HidArrays.ArrayDelta` | components/ble_client_hid/hid_parser.cpp:516-541 | Presses are now minus before and releases before minus now, per usage, with multiplicity |
| `HidArrays.SameUsagesAreSilent` | components/ble_client_hid/hid_parser.cpp:503-541 | A report that asserts the same usages equally often emits nothing |
| `HidArrays.PermutedSlotsAreSilent` | components/ble_client_hid/hid_parser.cpp:503-541 | Permuting the values of the slots of an array emits nothing |
| `HidArrays.ArrayReplay` | components/ble_client_hid/hid_parser.cpp:503-542 | Over any run, presses minus releases is the multiset of usages that the last decoded report asserts |
| `HidArrays.ReleasesNeverLead` | components/ble_client_hid/hid_parser.cpp:516-541 | At no point of the emitted stream has a usage been released more often than pressed |
| `HidIsolation.UnreadBitsInvisible` | components/ble_client_hid/hid_parser.cpp:456-545 | Emissions and next state depend only on the bits of the non-constant fields of the report |
| `HidIsolation.TrailingBytesOnlyChangeStatus` | components/ble_client_hid/hid_parser.cpp:567-573 | Bytes behind a complete report change nothing but the status, from exact to long |
| `HidIsolation.ReportReplay` | components/ble_client_hid/hid_parser.cpp:547-577 | Over any run, everything that carries a report id is, in order and up to the handle, what a decoder emits that is sent the payloads of this report and nothing else |
| `HidIsolation.InterleavingInvisible` | components/ble_client_hid/hid_parser.cpp:547-577 | Other reports, rejected payloads and foreign sources may be interleaved in any way without changing the emissions of a report: its whole sequence, and the stream of each of its scalars and arrays, depend on its own payloads alone |
| `HidIsolation.KeysIdentifyScalars` | components/ble_client_hid/hid_parser.cpp:480-483 | Among input reports, report id and bit position identify one scalar |
| `HidIsolation.KeyHasOneMeaning` | components/ble_client_hid/hid_parser.cpp:483-496 | All emissions at a scalar's key share usage, application and aggregation |
| `HidIsolation.PositionsBelowBootIds` | components/ble_client_hid/hid_parser.cpp:346-355 | Descriptor bit positions stay below 32768 and never meet the boot axis ids |
| `HidPacked.PackedReading` | components/ble_client_hid/hid_parser.cpp:471-475 | A value that is packed into a report is read exactly if logical minimum <= value <= logical maximum |
| `HidPacked.FilledRoute` | components/ble_client_hid/hid_parser.cpp:547-577 | A packed report with trailing bytes is routed to its own fields |
| `HidPacked.PackedScalarReplay` | components/ble_client_hid/hid_parser.cpp:466-499 | Over any run of packed reports, the emissions of a scalar are the changes (or non-zero motions) among the sent values within the logical range, written out as inequalities; each has the listed usage, the last one listed past the list, or that of the range |
| `HidPacked.PackedArrayReplay` | components/ble_client_hid/hid_parser.cpp:503-542 | Over any run of packed reports, presses minus releases is what the slot values of the last report mean: value v in range is usage v - minimum of the list, or of the one-page usage range counted up from its minimum, and nothing otherwise |
| `HidPacked.ArrayRunSpeaks` | components/ble_client_hid/hid_parser.cpp:516-541 | Every press carries the raw slot value that means its usage; every release is 0 |
| `BootDecoder.HIDBootReportDecoder.constructor` | components/ble_client_hid/boot_report_decoder.cpp:9-12 | A decoder starts with no buttons, modifiers or keys held |
| `BootDecoder.HIDBootReportDecoder.Reset` | components/ble_client_hid/boot_report_decoder.cpp:8-12 | Forgets every characteristic |
| `BootDecoder.HIDBootReportDecoder.Decode` | components/ble_client_hid/boot_report_decoder.cpp:14-104 | Values, status and per-handle state for every boot source and payload, error paths included |
| `BootDecoder.HIDBootReportDecoder.DecodeMouse` | components/ble_client_hid/boot_report_decoder.cpp:26-60 | Button changes in bit order, then the non-zero signed X and Y motions; only this handle's buttons change |
| `BootDecoder.HIDBootReportDecoder.DecodeModifiers` | components/ble_client_hid/boot_report_decoder.cpp:68-79 | Modifier changes in bit order; only this handle's modifiers change |
| `BootDecoder.HIDBootReportDecoder.EmitKeys` | components/ble_client_hid/boot_report_decoder.cpp:85-98 | Keys of one set that are missing in the other, in ascending order |
| `BootDecoder.SignalReplay` | components/ble_client_hid/boot_report_decoder.cpp:14-104 | Over any run, the values emitted for a button, modifier, key or axis of one characteristic are the changes (or non-zero motions) of what the bytes of its own accepted reports say; other characteristics have no influence |
| `BootDecoder.KeysAlternate` | components/ble_client_hid/boot_report_decoder.cpp:28-99 | Buttons, modifiers and keys alternate 1, 0, 1, 0, starting with 1, and end at the last accepted report |
| `BootDecoder.AxesAddUp` | components/ble_client_hid/boot_report_decoder.cpp:40-58 | X and Y emissions add up to the signed bytes received |
| `BootDecoder.PressedAreHeld` | components/ble_client_hid/boot_report_decoder.cpp:81-84 | A key is held exactly if it is not 0, at most 0xE7 and in one of the bytes 2 to 7 |
| `BootDecoder.BitsMakeByte` | components/ble_client_hid/boot_report_decoder.cpp:28-72 | Buttons and modifiers are the bits of the byte |
| `BootDecoder.SignedByte` | components/ble_client_hid/boot_report_decoder.cpp:40-41 | An axis byte is a two's complement number |
| `BootDecoder.BootRouteMeaning` | components/ble_client_hid/boot_report_decoder.cpp:14-66 | When a boot payload is accepted, with which status, by UUID and length |
| `BootDecoder.BootValuesSpeak` | components/ble_client_hid/boot_report_decoder.cpp:28-99 | Usage, application, field id, relativity and aggregation of everything the boot decoder emits, in numbers |
| `EventBuffer.SaturatingAddExact` | components/ble_client_hid/ordered_event_buffer.h:93-99 | The sum stays in int64 and is exact unless the true sum leaves it |
| `EventBuffer.OrderedEventBuffer.constructor` | components/ble_client_hid/ordered_event_buffer.h:36-36 | An empty buffer with its capacity |
| `EventBuffer.OrderedEventBuffer.Accumulate` | components/ble_client_hid/ordered_event_buffer.h:38-63 | Merges into the entry with the key, appends a new key in insertion order, or refuses a new key when full and changes nothing |
| `EventBuffer.OrderedEventBuffer.Drain` | components/ble_client_hid/ordered_event_buffer.h:65-72 | All pending events in insertion order; the buffer is empty afterwards |
| `EventBuffer.OrderedEventBuffer.DrainBefore` | components/ble_client_hid/ordered_event_buffer.h:74-78 | The drained events, then the barrier |
| `EventBuffer.OrderedEventBuffer.Clear` | components/ble_client_hid/ordered_event_buffer.h:80-80 | Empties the buffer |
| `Coalescing.InputPipeline.constructor` | components/ble_client_hid/ble_client_hid.h:258-261 | An idle pipeline: closed window, empty buffer, nothing emitted |
| `Coalescing.InputPipeline.EmitAll` | components/ble_client_hid/ble_client_hid.cpp:1320-1340 | Events leave in order |
| `Coalescing.InputPipeline.FlushSampledEvents` | components/ble_client_hid/ble_client_hid.cpp:1272-1277 | The pending events leave in order, the buffer is empty |
| `Coalescing.InputPipeline.UpdateSamplingWindow` | components/ble_client_hid/ble_client_hid.cpp:1260-1270 | A due window flushes and restarts, an empty one closes |
| `Coalescing.InputPipeline.EmitBarrier` | components/ble_client_hid/ble_client_hid.cpp:1218-1222 | A barrier follows what was pending and closes the window |
| `Coalescing.InputPipeline.AccumulateEvent` | components/ble_client_hid/ble_client_hid.cpp:1245-1258 | A value is merged or buffered; a full buffer is flushed and the value tried again |
| `Coalescing.InputPipeline.AccumulateRun` | components/ble_client_hid/ble_client_hid.cpp:1237-1239 | A run of mergeable values, value by value |
| `Coalescing.InputPipeline.ProcessDecodedValues` | components/ble_client_hid/ble_client_hid.cpp:1211-1243 | The loop over values: barriers, heads of windows and accumulated runs |
| `Coalescing.InputPipeline.ProcessInputReport` | components/ble_client_hid/ble_client_hid.cpp:1199-1208 | Values, then a raw envelope as a barrier when there are none and the report was not recognised |
| `CoalescingRefinement.RunIsFaithful` | components/ble_client_hid/ble_client_hid.cpp:1211-1277 | Over every run of ticks and reports, emitted plus pending is the plain stream, key by key, with neighbours merged and no barrier crossed; a closed window has an empty buffer |
| `CoalescingRefinement.BarriersKept` | components/ble_client_hid/ble_client_hid.cpp:1216-1222 | At every moment the barriers emitted are exactly the barriers received, in order |
| `CoalescingRefinement.SumKeysAgreeAtBarriers` | components/ble_client_hid/ble_client_hid.cpp:1211-1277 | In front of every barrier the emitted contributions of a SUM key add up to those received; emitted plus pending adds up to all of them |
| `CoalescingRefinement.LatestKeysAgreeAtBarriers` | components/ble_client_hid/ble_client_hid.cpp:1211-1277 | In front of every barrier the last emitted value of a LATEST key is the last value received |
| `CoalescingRefinement.EmptyAccepts` | components/ble_client_hid/ble_client_hid.cpp:1253-1256 | The retry behind a pressure flush always succeeds, so no value is lost |
| `CoalescingRefinement.RefusedWhenFull` | components/ble_client_hid/ordered_event_buffer.h:38-63 | The buffer refuses exactly a value of a new key when it holds sixteen others |
| `CoalescingRefinement.MergedEntry` | components/ble_client_hid/ordered_event_buffer.h:40-56 | A merged entry is the newest event with the combined amount and the first sequence number |
| `CoalescingRefinement.DisabledIsPlain` | components/ble_client_hid/ble_client_hid.cpp:1216-1224 | With interval zero the pipeline is the plain stream |
| `CoalescingRefinement.SpansAscend` | components/ble_client_hid/ordered_event_buffer.h:50-54 | Every emission spans from the sequence number of its first to that of its last contribution, where the contributions cut the plain stream into groups; everything else is that of the last contribution; the spans of one key are disjoint and ascend |
| `CoalescingRate.RunIsRated` | components/ble_client_hid/ble_client_hid.cpp:1229-1240 | Of two emissions of one key without barrier or pressure flush between them, the later one happens at least the (nonzero) sampling interval of real time behind the earlier one, which counts from the first reading behind it, or from its own flush reading for a timer flush; across all wraps of the microsecond clock |
| `CoalescingLatency.DueTickFlushes` | components/ble_client_hid/ble_client_hid.cpp:1260-1270 | With an open window, the timer leaves nothing pending exactly from the interval on, less than a clock wrap behind the start of the window; earlier it changes nothing |
| `CoalescingLatency.PendingLeaves` | components/ble_client_hid/ble_client_hid.cpp:1211-1277 | With the main loop coming round within a gap while a window is open, whatever is pending lies in a window younger than the interval, and once a reading lies behind that window all of it has left as the very next emissions, in order, at most the interval plus the gap behind the start of the window |
| `ReportQueue.DropsIsLeast` | components/ble_client_hid/ble_client_hid.cpp:1158-1171 | The shortest possible prefix is dropped: the rest leaves room within 64 reports and 4096 bytes, and no longer rest did |
| `ReportQueue.EnqueuedWithin` | components/ble_client_hid/ble_client_hid.cpp:1158-1182 | After every admitted report at most 64 reports and 4096 bytes are queued |
| `ReportQueue.RunConserves` | components/ble_client_hid/ble_client_hid.cpp:1145-1183 | Over any run, the accepted reports are exactly the notifications of at most 512 bytes without null data, in order, and they are the departed ones followed by the queued ones; every notification takes a sequence number |
| `ReportQueue.AcceptedBalance` | components/ble_client_hid/ble_client_hid.cpp:1145-1183 | Accepted = processed + dropped + queued |
| `ReportQueue.TakenAscend` | components/ble_client_hid/ble_client_hid.cpp:1145-1183 | All reports handed over since the start, then those still queued, carry strictly ascending sequence numbers below the next one |
| `ReportQueue.PendingReports.constructor` | components/ble_client_hid/ble_client_hid.h:230-231 | An empty queue |
| `ReportQueue.PendingReports.MakeRoom` | components/ble_client_hid/ble_client_hid.cpp:1158-1171 | The drop loop removes exactly the least prefix and counts it modulo 2^32 |
| `ReportQueue.PendingReports.Enqueue` | components/ble_client_hid/ble_client_hid.cpp:1145-1183 | Null and oversized payloads are ignored; others are appended behind what stays; the byte counter is the sum of the payload sizes |
| `ReportQueue.PendingReports.Dequeue` | components/ble_client_hid/ble_client_hid.cpp:260-262 | The oldest report leaves and takes its bytes off the counter |
| `ReportQueue.PendingReports.Clear` | components/ble_client_hid/ble_client_hid.cpp:193-194 | Queue and counter are reset |
| `KeyStreams.StreamFollows` | components/ble_client_hid/ble_client_hid.cpp:1185-1209 | At every key a report map can use, the plain stream of the whole component is the stream of that service's report map, whatever other services, reports and boot characteristics do |
| `KeyStreams.RuntimeFollows` | components/ble_client_hid/ble_client_hid.cpp:1194-1197 | A report map sees exactly the reports of its service that are not boot reports |
| `SystemRate.ReportApart` | components/ble_client_hid/hid_parser.cpp:480-483 | One report emits at most one mergeable value per bit position |
| `SystemRate.BootApart` | components/ble_client_hid/boot_report_decoder.cpp:40-58 | Of a boot report only the two axes are mergeable, under two different ids |
| `SystemRate.SystemIsRated` | components/ble_client_hid/ble_client_hid.cpp:1185-1277 | The real-time rate bound for the whole component, for any compiled report maps, any run and any nonzero interval |
| `SystemRate.QueueNumbers` | components/ble_client_hid/ble_client_hid.cpp:1145-1183 | Whatever the queue hands to the main loop, over drops and resets, comes with strictly ascending sequence numbers |
| `SystemRate.SystemSpansAscend` | components/ble_client_hid/ble_client_hid.cpp:1279-1297 | For whatever the queue hands over, the emitted spans of every key run from first to last contributing report, are disjoint and ascend |
| `EndToEnd.EnvelopeUnlessTooShort` | README.md:300-303 | Every report that cannot be decoded yields a raw envelope, except exactly those too short for their descriptor, which yield nothing |
| `EndToEnd.OneByteMapCompiles` | components/ble_client_hid/hid_parser.cpp:171-404 | A concrete descriptor of eight bytes and the report map that it compiles to |
| `EndToEnd.ShortReportIsSilent` | components/ble_client_hid/hid_parser.cpp:566-571 | A concrete descriptor and notification against the documentation: an empty payload for a one-byte report, which the queue hands on, and no envelope |
| `EndToEnd.ActAllIsRun` | components/ble_client_hid/ble_client_hid.cpp:209-268 | Decoders and pipeline stepped together are the runs that the theorems speak about |
| `EndToEnd.EventsCarry` | components/ble_client_hid/ble_client_hid.cpp:1279-1318 | Without coalescing a report gives one event per decoded value, in order, or its envelope; each carries the source, payload, status and sequence number of the report |
| `DeliveredPacked.MotionDelivered` | components/ble_client_hid/ble_client_hid.cpp:1185-1277 | From sent values to events: everything emitted and pending for a relative scalar adds up to the values sent within its logical range, and in front of every barrier to those sent so far |
| `DeliveredPacked.LatestDelivered` | components/ble_client_hid/ble_client_hid.cpp:1185-1277 | From sent values to events: the last value emitted or pending for a coalesced absolute scalar is the last one sent within its logical range, likewise in front of every barrier |
| `DeliveredPacked.ChangesDelivered` | components/ble_client_hid/ble_client_hid.cpp:1216-1226 | Buttons, keys and narrow controls: exactly the changes among the sent values within the logical range |
| `DeliveredPacked.SelectionDelivered` | components/ble_client_hid/ble_client_hid.cpp:1216-1226 | Arrays: emitted presses minus releases are the usages that the slot values of the last report mean |
| `DeliveredBoot.BootFollows` | components/ble_client_hid/ble_client_hid.cpp:1186-1193 | The boot decoder sees exactly the boot reports, whatever else is received |
| `DeliveredBoot.KeysDelivered` | components/ble_client_hid/ble_client_hid.cpp:1185-1222 | From boot report bytes to events: for every button, modifier and key of a characteristic exactly the changes of what the bytes of its reports say are emitted, among any other traffic |
| `Delivered.RelativeMotionConserved` | components/ble_client_hid/ble_client_hid.cpp:1185-1277 | From payload bytes to events: everything emitted and pending for a relative scalar adds up to the motion the peripheral reported, and what is emitted in front of every barrier adds up to the motion reported in front of it, as long as no sum saturates |
| `Delivered.ScalarsDoNotSaturate` | components/ble_client_hid/ordered_event_buffer.h:93-99 | Fewer than 2^31 loop iterations and reports cannot saturate the sum of a descriptor-defined scalar |
| `Delivered.AxesDoNotSaturate` | components/ble_client_hid/ordered_event_buffer.h:93-99 | Nor the sum of a boot mouse axis |
| `Delivered.LatestValueDelivered` | components/ble_client_hid/ble_client_hid.cpp:1185-1277 | From payload bytes to events: the last value emitted or pending for a coalesced absolute scalar is the last in-range value reported, and in front of every barrier it is the last one reported in front of it |
| `Delivered.PassthroughExact` | components/ble_client_hid/ble_client_hid.cpp:1216-1226 | Buttons, keys and narrow controls are emitted at once and exactly as they changed |
| `Delivered.ArrayStateDelivered` | components/ble_client_hid/ble_client_hid.cpp:1216-1226 | Emitted presses minus releases of an array is what the last report asserts |
| `KeyTotals.MarksFollow` | components/ble_client_hid/ble_client_hid.cpp:1211-1243 | Along the plain stream, a key amounts in front of every barrier to what its values so far do, those of the barrier's own report counting when they stand in front of the barrier |
| `Delivered.BootMotionConserved` | components/ble_client_hid/ble_client_hid.cpp:1247-1249 | The total under a boot axis key is the motion of all boot mice of the service with that report id, at the end and in front of every barrier, as long as it does not saturate |
| `InputComponent.BLEClientHID.constructor` | components/ble_client_hid/ble_client_hid.cpp:180-207 | Fresh decoders, idle pipeline and empty queue over the given report maps |
| `InputComponent.BLEClientHID.Decode` | components/ble_client_hid/ble_client_hid.cpp:1185-1198 | Boot characteristics go to the boot decoder, others to the report map of their service; no other map changes |
| `InputComponent.BLEClientHID.ProcessInputReport` | components/ble_client_hid/ble_client_hid.cpp:1185-1209 | One report takes decoders and pipeline one step of the system function |
| `InputComponent.BLEClientHID.Loop` | components/ble_client_hid/ble_client_hid.cpp:254-267 | One loop iteration is a tick, the processing of a prefix of the queue of at most 8 reports, and a tick |
| `Subscription.FallbackFromDelayOn` | components/ble_client_hid/subscription_state.h:34-50 | The fallback is due exactly from 250 ms after the registration on, across wraps of the millisecond clock |
| `SetupFallback.OwnWriteAtDelay` | components/ble_client_hid/ble_client_hid.cpp:243-250 | In every run, a tick in the wait for a CCCD makes the component's own write exactly if none was made before and at least 250 ms of the wait have passed, across wraps of the millisecond clock; otherwise it does nothing |
| `Subscription.SubscriptionAttemptState.constructor` | components/ble_client_hid/subscription_state.h:66-73 | Idle, no handles, no write attempted |
| `Subscription.SubscriptionAttemptState.Reset` | components/ble_client_hid/subscription_state.h:26-32 | No attempt |
| `Subscription.SubscriptionAttemptState.RegistrationResult` | components/ble_client_hid/subscription_state.h:34-45 | Decision and next state for every stage, handle and outcome |
| `Subscription.SubscriptionAttemptState.CccdResult` | components/ble_client_hid/subscription_state.h:54-64 | Decision and next state for every stage, handle and outcome |
| `SetupCoverage.EachAttributeOnce` | components/ble_client_hid/ble_client_hid.cpp:483-504 | At most 384 reads are planned, and no attribute twice |
| `SetupCoverage.AttributePlanned` | components/ble_client_hid/ble_client_hid.cpp:506-568 | Every readable attribute that standard discovery reads is planned under its purpose unless the plan overflows |
| `SetupCoverage.SubscriptionPlanned` | components/ble_client_hid/ble_client_hid.cpp:864-895 | Every characteristic that wants a subscription is planned with the handle of its first CCCD unless the plan overflows |
| `SetupPlan.SubscriptionsWithin` | components/ble_client_hid/ble_client_hid.cpp:877-880 | At most 128 subscriptions are planned |
| `SetupPlan.BuildIsSound` | components/ble_client_hid/ble_client_hid.cpp:787-834 | If building the profile finds nothing, every HID Report characteristic has a report reference and no reference dangles; report maps are kept |
| `SetupDatabase.ReadsAreWanted` | components/ble_client_hid/ble_client_hid.cpp:483-568 | The planned reads are the first 384 attributes with handles of their own, in database order; overflow exactly if there are more |
| `SetupDatabase.PurposesAre` | components/ble_client_hid/ble_client_hid.cpp:511-544 | Why a characteristic is read in standard discovery, by service and characteristic UUID |
| `SetupDatabase.SubscriptionsAreWanted` | components/ble_client_hid/ble_client_hid.cpp:864-895 | The planned subscriptions are the first 128 of notifying or indicating input characteristics, Battery Level and Service Changed (all of them in forensic discovery); overflow exactly if there are more |
| `SetupDatabase.FirstCccd` | components/ble_client_hid/ble_client_hid.cpp:335-340 | The CCCD of a characteristic is its first descriptor 0x2902, and 0 stands for none |
| `SetupDatabase.HandlesAreWanted` | components/ble_client_hid/ble_client_hid.cpp:838-841 | One Protocol Mode write for each HID service with the characteristic, to its last one, in order |
| `SetupGrounds.RunDatabase` | components/ble_client_hid/ble_client_hid.cpp:354-481 | Services are those of the last inventory of the connection, congestion is what the stack last reported |
| `SetupGrounds.ResetsForget` | components/ble_client_hid/ble_client_hid.cpp:1018-1032 | Connect and Disconnect forget everything and lead to their phases |
| `SetupGrounds.RunGrounded` | components/ble_client_hid/ble_client_hid.cpp:354-481 | Exactly the HID services have contexts |
| `SetupGrounds.TimeoutIsOverdue` | components/ble_client_hid/ble_client_hid.cpp:270-289 | A tick times out exactly if it ends 15 seconds or more into a busy phase, the one that its own work has just started included |
| `SetupWork.WantedIsTried` | components/ble_client_hid/ble_client_hid.cpp:836-928 | A setup that was not cut short has asked for every wanted subscription and written every known Protocol Mode handle with the value of the policy (none under unchanged), in order and once each, also behind a timeout of the reads; without such a timeout it has made every wanted read. READY always means that |
| `SetupWork.OnlyTriedIsWritten` | components/ble_client_hid/ble_client_hid.cpp:951-967 | Own CCCD writes go to CCCDs of tried subscriptions only, with 1 for notifications and 2 for indications; only tried subscriptions are confirmed |
| `SetupReferences.ProfilesFind` | components/ble_client_hid/ble_client_hid.cpp:787-834 | The profile has a finding exactly if a HID Report characteristic got no reference or a reference of a service with a map names no report of it, in terms of what was read |
| `SetupReferences.ProfilesHandles` | components/ble_client_hid/ble_client_hid.cpp:795-797 | The handles whose notifications are input are those of the input characteristics of HID services |
| `SetupAnswers.ReferencesAreAnswers` | components/ble_client_hid/ble_client_hid.cpp:713-731 | In every run, what is known about the report of a characteristic is the last two-byte reference read for it, with service and boot type completed by the profile |
| `SetupAnswers.MapsAreAnswers` | components/ble_client_hid/ble_client_hid.cpp:699-712 | In every run, degraded or not, the map of a service is what the last Report Map read for it compiles to |
| `SetupAnswers.HandlesAreListed` | components/ble_client_hid/ble_client_hid.cpp:795-797 | In every run, exactly the input characteristics that profiles of the connection have listed deliver reports |
| `SetupProofs.StepOrderly` | components/ble_client_hid/ble_client_hid.cpp:209-1089 | Every expected event keeps reads inside READING, subscriptions inside REGISTERING and WAITING_FOR_CCCD, and the attempt in step with the active subscription |
| `SetupProofs.RunOrderly` | components/ble_client_hid/ble_client_hid.cpp:209-1089 | Every reachable state of an expected run is orderly, which the step theorems require |
| `SetupProofs.TerminalIsClean` | components/ble_client_hid/ble_client_hid.cpp:270-289 | Every terminal phase has nothing active and nothing queued |
| `SetupProofs.AttemptsWriteOnce` | components/ble_client_hid/ble_client_hid.cpp:951-967 | An attempt makes at most one CCCD write of its own in any order of callbacks; the active subscription is absent exactly when the attempt is idle |
| `SetupProofs.UnmatchedCallbacksStutter` | components/ble_client_hid/ble_client_hid.cpp:1042-1056 | Callbacks that do not belong to the active operation change nothing |
| `SetupProofs.DiscoveryOrderly` | components/ble_client_hid/ble_client_hid.cpp:1033-1041 | A discovery event of either outcome keeps an orderly state orderly exactly when nothing is in flight |
| `SetupProofs.UncleanAfterDiscovery` | components/ble_client_hid/ble_client_hid.cpp:1033-1041 | Every discovery event with something in flight, whatever its outcome, has a continuation into a terminal phase with work left over |
| `SetupProofs.DiscoveryIsExact` | components/ble_client_hid/ble_client_hid.cpp:1033-1041 | Behind a discovery event, all terminal phases of all continuations are clean exactly when nothing was in flight |
| `SetupProofs.LateDiscoveryRun` | components/ble_client_hid/ble_client_hid.cpp:1033-1041 | A concrete run with a second discovery event that ends setup with a read still queued |
| `SetupProofs.ReadyIsHonest` | components/ble_client_hid/ble_client_hid.cpp:999-1013 | READY: every planned required read was answered by a report map that compiled, every service has the map compiled from its last Report Map read, every HID Report characteristic has a report reference, every reference in a HID service with a map names a report that the map defines, every planned required subscription was confirmed, and no plan overflowed |
| `SetupFaults.StepFault` | components/ble_client_hid/ble_client_hid.cpp:209-1089 | A step degrades setup exactly if it has a fault: a failed discovery, inventory or limit, a required request that failed or was not taken, a value that is unusable, a reference that is missing or undefined, a phase timeout; only a new connection repairs it |
| `SetupFaults.DegradedMeansFault` | components/ble_client_hid/ble_client_hid.cpp:173-178 | In every expected run setup is degraded exactly if a fault has happened since the connection began |
| `SetupFaults.ReadyMeansFaultless` | components/ble_client_hid/ble_client_hid.cpp:999-1013 | A setup that has ended otherwise than without HID service is READY exactly if no fault has happened, and DEGRADED exactly if one has |
| `SetupExample.ConnectionIsReady` | components/ble_client_hid/ble_client_hid.cpp:209-1089 | A whole run from Connect to READY of a keypad with a Report Map and one subscribed report, for every policy, without a fault |
| `SetupExample.FirstButtonIsReported` | components/ble_client_hid/ble_client_hid.cpp:1185-1209 | Behind it, a notification with the first bit set is decoded to one value, a 1 at bit 0 |
| `SetupInput.StoredMapsOk` | components/ble_client_hid/ble_client_hid.cpp:699-712 | In every state of every run the stored report maps meet what the theorems about decoding assume |
| `SetupInput.NamedIsRouted` | components/ble_client_hid/hid_parser.cpp:547-577 | A reference that names a report routes input payloads to just that report |
| `SetupInput.ReadyDecodes` | components/ble_client_hid/ble_client_hid.cpp:1172-1197 | READY: a report from a referenced characteristic of a service with a map never fails for want of a schema, and behind an input reference it is recognised, and decoded unless it is too short |
| `SetupCoverage.ReadyMeansUsable` | components/ble_client_hid/ble_client_hid.cpp:999-1013 | READY in terms of the GATT database: every readable Report Map with a handle of its own is parsed, every notifying report characteristic is subscribed |
| `SetupTermination.StepProgress` | components/ble_client_hid/ble_client_hid.cpp:209-289 | No event of a setup raises its rank, and the phase timer restarts only when the rank drops |
| `SetupTermination.TimeoutProgress` | components/ble_client_hid/ble_client_hid.cpp:270-289 | Every phase timeout strictly lowers the rank |
| `SetupTermination.SetupSettles` | components/ble_client_hid/ble_client_hid.cpp:209-289 | From any busy phase, whatever callbacks, failures and congestion come, a terminal phase is reached within rank times (15 s + loop gap) of real time; the rank is linear in the planned subscriptions |
| `SetupTermination.DiscoverySettles` | components/ble_client_hid/ble_client_hid.cpp:209-289 | After a successful discovery with nothing in flight at most 262 phase timeouts pass, across any number of wraps of the millisecond clock |
| `SetupComponent.BLEClientHID.constructor` | components/ble_client_hid/ble_client_hid.cpp:180-207 | A disconnected component |
| `SetupComponent.BLEClientHID.ResetConnectionState` | components/ble_client_hid/ble_client_hid.cpp:180-207 | Forgets database, plans, attempts and flags |
| `SetupComponent.BLEClientHID.AddRead` | components/ble_client_hid/ble_client_hid.cpp:483-504 | A handle is planned once and up to the limit, beyond which setup is degraded |
| `SetupComponent.BLEClientHID.PlanCharacteristic` | components/ble_client_hid/ble_client_hid.cpp:511-565 | Own value and descriptors of one characteristic, by discovery mode |
| `SetupComponent.BLEClientHID.PlanReads` | components/ble_client_hid/ble_client_hid.cpp:506-568 | The nested loops build the read plan |
| `SetupComponent.BLEClientHID.StartNextRead` | components/ble_client_hid/ble_client_hid.cpp:570-590 | The next read starts, fails to be scheduled, or the queue is done |
| `SetupComponent.BLEClientHID.ProcessReportReference` | components/ble_client_hid/ble_client_hid.cpp:713-731 | Stores a two-byte reference; degrades on other lengths and types |
| `SetupComponent.BLEClientHID.ProcessReportMap` | components/ble_client_hid/ble_client_hid.cpp:699-712 | Compiles and stores the report map; degrades when it is empty or does not compile |
| `SetupComponent.BLEClientHID.ProcessValue` | components/ble_client_hid/ble_client_hid.cpp:617-743 | Effect of every purpose on contexts, sources and the degraded flag |
| `SetupComponent.BLEClientHID.FinishActiveRead` | components/ble_client_hid/ble_client_hid.cpp:592-615 | Failed, oversized and null values degrade only required reads; others are processed |
| `SetupComponent.BLEClientHID.BuildCharacteristic` | components/ble_client_hid/ble_client_hid.cpp:791-811 | Source, handle set, missing reference and Protocol Mode handle of one characteristic |
| `SetupComponent.BLEClientHID.CheckReferences` | components/ble_client_hid/ble_client_hid.cpp:814-826 | Degrades exactly when some reference of the service names an undefined report |
| `SetupComponent.BLEClientHID.BuildHidProfiles` | components/ble_client_hid/ble_client_hid.cpp:787-834 | The loops over services, characteristics and sources build the profile |
| `SetupComponent.BLEClientHID.StartProtocolModeWrite` | components/ble_client_hid/ble_client_hid.cpp:836-862 | One Protocol Mode write a tick, then the subscription plan |
| `SetupComponent.BLEClientHID.CollectProtocolHandles` | components/ble_client_hid/ble_client_hid.cpp:838-841 | Protocol Mode handles of the services, in order, unless the policy leaves the mode unchanged |
| `SetupComponent.BLEClientHID.FindCccd` | components/ble_client_hid/ble_client_hid.cpp:335-340 | Handle of the first CCCD, or 0 |
| `SetupComponent.BLEClientHID.SubscribeService` | components/ble_client_hid/ble_client_hid.cpp:867-891 | The subscriptions of one service; the first one past the limit ends it and degrades |
| `SetupComponent.BLEClientHID.PlanSubscriptions` | components/ble_client_hid/ble_client_hid.cpp:864-895 | The subscription plan of all services |
| `SetupComponent.BLEClientHID.WriteProtocolMode` | components/ble_client_hid/ble_client_hid.cpp:853-861 | The next handle is written with 0 for boot or 1 for report mode; a write that is not taken degrades |
| `SetupComponent.BLEClientHID.StartNextSubscription` | components/ble_client_hid/ble_client_hid.cpp:897-928 | The next registration starts, fails, or setup is finalised |
| `SetupComponent.BLEClientHID.HandleRegistrationResult` | components/ble_client_hid/ble_client_hid.cpp:930-949 | Unmatched, failed or waiting for the CCCD |
| `SetupComponent.BLEClientHID.WriteCurrentCccd` | components/ble_client_hid/ble_client_hid.cpp:951-967 | One own CCCD write; a write that cannot be scheduled fails the attempt |
| `SetupComponent.BLEClientHID.HandleCccdResult` | components/ble_client_hid/ble_client_hid.cpp:969-997 | Unmatched, complete, retried by an own write, or failed |
| `SetupComponent.BLEClientHID.Inventory` | components/ble_client_hid/ble_client_hid.cpp:220-234 | No services or an error finalises degraded, no HID service ends in NO_HID, otherwise reads are planned |
| `SetupComponent.BLEClientHID.RunPhase` | components/ble_client_hid/ble_client_hid.cpp:219-251 | The phase switch of the loop |
| `SetupComponent.BLEClientHID.HandlePhaseTimeout` | components/ble_client_hid/ble_client_hid.cpp:270-289 | A timeout degrades and moves on: reading is abandoned for building, everything else is finalised |
| `SetupComponent.BLEClientHID.Handle` | components/ble_client_hid/ble_client_hid.cpp:1015-1109 | Every loop tick and callback performs the step of the setup protocol on fields, phase timer (`TransitionTo`, `FinalizeSetup`) and attempt record (`Begin`, `FallbackDueAt`, `OwnCccdWriteAttempted` of the attempt object) |
| `UsageTables.Generate` | generate_cpp_usage_tables.py:27-38 | The nested loops flatten the pages into rows sorted by id with contiguous segments |
| `UsageTables.SortedIsAscending` | generate_cpp_usage_tables.py:27-33 | Unique ids come out strictly ascending, all of them and no others |
| `UsageTables.SegmentOfPage` | generate_cpp_usage_tables.py:29-38 | The segment of a page row holds exactly that page's sorted usages |
| `UsageTables.JoinedSplits` | generate_cpp_usage_tables.py:36-36 | The kinds of a usage can be read back from the joined text, none lost or reordered |
| `UsageTables.PlainLookupMeans` | components/ble_client_hid/usage_data.cpp:2828-2845 | The plain lookup yields exactly the usage with the id in the page with the id |
| `UsageTables.BinaryFind` | components/ble_client_hid/usage_data.cpp:2817-2827 | In a range with ascending ids, finds the row with the id or proves there is none |
| `UsageTables.FindUsage` | components/ble_client_hid/usage_data.cpp:2828-2845 | The two binary searches agree with the plain lookup in the page list, for all pages with unique ids |
| `UsageTables.LookupUsageName` | components/ble_client_hid/usage_data.cpp:2838-2845 | The name of the plain lookup, or none |
| `UsageTables.LookupUsageKinds` | components/ble_client_hid/usage_data.cpp:2846-2853 | The joined kinds of the plain lookup, or none when there are none |

## Left out

- ESP-IDF, ESPHome, mbedtls and Home Assistant calls: their results are inputs of the steps. Logging, hex and text formatting and SHA-256 fingerprints are not modelled.
- Advertisement logging, sensors, text sensors, configuration schemas and build scripts.
- The GATT enumeration itself (components/ble_client_hid/ble_client_hid.cpp:354-481): its result is an input list of at most 64 services, with flags for an error and for an exceeded limit.
- Device name, appearance, PnP id, battery level and connection parameters: only the effect of their length checks on the degraded state.
- UUIDs longer than 16 bits: they match nothing and stand as 0.
- Event data as string maps and usage names in events: an event is a record of source, payload, status, value and sequence numbers.
- Writes of Protocol Mode and CCCD attributes: handle, value, order and whether the stack takes them are modelled; what the peripheral does with them is an input.
- The reset of queue, boot decoder and pipeline on connect and disconnect: the theorems about them speak about one connection.
- The counters of succeeded and failed operations: one operation can count twice, so no balance holds.
- The 64-bit wrap of the sequence number counter: sequence numbers are unbounded.
- The micros() reading that bounds the time spent in one loop iteration: the number of reports that fit is an input of `InputComponent.BLEClientHID.Loop`, and that reading is not among the clock readings of the pipeline.
- The several millis() readings inside one step: a callback has one time, a loop iteration has two, one for its phase and one for the timeout check.
- The rate-limited overflow warning of the queue, and the drop counter as anything but a number modulo 2^32.
- Report maps are fixed while reports are processed; a reconnect starts with fresh ones.
- std::set, std::map and std::multimap iteration: ascending order, with equal multimap keys in insertion order.
- Parser diagnostics as text: they are kept as data (long items, unknown items, open Pushes).
- Rediscovery after a Service Changed indication: it disconnects, which the setup model has as an event.
- UsageTables.Generate: sorting is the function `Sorted` rather than a loop, since the source calls a library sort; JSON reading and C++ text output are left out, as is the 16-bit width of a segment start.
- SetupCoverage.ReadyMeansUsable: the Report Map half speaks of attributes with a handle of their own, since a handle that occurs twice in the database is read only once.
- HidDecompiler.NormalFormReadsBack: the notes about unusual items and the flag that Report IDs occur at all are not part of the normal form.
