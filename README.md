# NTD test jig: segment test and fault queue, in Dafny

This project models the core of the NTD test jig firmware for the Arduino Uno.
The jig tests a nixie-tube driver board one tube position ("segment") at a time.
`TestSegment` selects the segment, then switches each element of the tube on in turn:

- nothing;
- digits 1 to 9;
- digit 0;
- the decimal point.

After each switch it reads a priority encoder and two sense lines. Every anomaly
becomes a fault record (`Error_t`) of kind SHORT or OPEN. The record is copied
onto a heap-allocated linked queue. The queue has a head sentinel `queue`, a tail
pointer `working` and a 16-bit counter `errorCount`.

Files:

- `error_types.dfy` (module `ErrorTypes`) covers `Err_et`, `Digit_et` and
  `Error_t` from `ErrorHandling.h`:
  - the record is a datatype;
  - a heap node is a class `Node` with a mutable `next`.
- `error_queue.dfy` (module `ErrorHandling`) covers the queue of
  `ErrorHandling.cpp`. It is a class `ErrorQueue` over the three globals, with a
  ghost list of nodes and their records (`Contents`), kept by `Valid()`. It holds
  `SetupQueue`, `EnqueueError` and `FreeQueue`/`FreeQueueRecursive`.
- `testing.dfy` (module `Testing`) covers `Testing.cpp`:
  - `ChangeSegment` and `SwitchDigit` are lists of actuator calls;
  - `ReadEncoder` is modelled exactly as written, with 16-bit AVR `int` and
    `uint8_t` truncation;
  - each check of `TestSegment` is a `Check` (condition, record) and each phase is
    its list of checks;
  - the pure specifications `ExpectedRecords` and `ExpectedTrace` give a whole call;
  - the imperative `TestSegment` mutates the working record `err` field by field,
    runs the 1..9 loop and pushes through `EnqueueError`. It is proved to append
    exactly what `ExpectedRecords` offers, less the records whose allocation fails,
    and to issue exactly `ExpectedTrace`.
- `testing_props.dfy` (module `TestingProperties`) holds lemmas about those
  specifications:
  - the value `ReadEncoder` really returns;
  - the pin aliasing;
  - per-phase classification;
  - segment and kind of every record, bounds and phase order;
  - the consequences of the encoder as written;
  - what survives allocation failures;
  - what the tube is shown.

Modelling choices:

- **Pins.** Pins are a map from Uno pin number to level. `ENC_3` and `SENSE_0` are
  both A4, so one map entry is read through both names.
- **Snapshots.** `TestSegment` is given 13 snapshots, one per actuation: after
  selection, after blanking, after each of digits 1..9, after digit 0 and after
  the decimal point. Every read made before the next actuation returns the
  snapshot's level.
- **Allocation.** Whether each `malloc` succeeds is an oracle. `SetupQueue` takes
  a boolean. `TestSegment` takes a function from enqueue attempt number (0, 1, …
  within the call) to success. `Kept` gives the records that survive.
- **Node bytes.** `digit` and `testDigit` hold any byte value, not only the
  thirteen enumerators. `TestSegment` stores whatever `ReadEncoder` returns, and
  that is 240..255.

## Model

| member | source | states |
|---|---|---|
| `ErrorTypes.ErrKindsDistinct` | NTD_TestJig/ErrorHandling.h:30-34 | NONE, SHORT and OPEN have pairwise distinct values |
| `ErrorTypes.ErrKind.Code` | NTD_TestJig/ErrorHandling.h:30-34 | the value of an `Err_et` enumerator lies in 0..2, C numbering them from 0 |
| `ErrorTypes.Digit.Code` | NTD_TestJig/ErrorHandling.h:36-50 | the value of a `Digit_et` enumerator is a byte no larger than 12 |
| `ErrorTypes.FromCode` | NTD_TestJig/ErrorHandling.h:36-50 | the cast to `Digit_et` names an enumerator exactly for values 0..12, and that enumerator has the value cast |
| `ErrorTypes.CodeRoundTrip` | NTD_TestJig/ErrorHandling.h:37-49 | the thirteen digit tags have distinct values: casting a tag's value back gives the tag |
| `ErrorTypes.IndexNamesNumeral` | NTD_TestJig/ErrorHandling.h:38-46 | for index 1..9, `(Digit_et)index` is the numeral that shows `index` |
| `ErrorTypes.PseudoDigitsApart` | NTD_TestJig/ErrorHandling.h:37-49 | BLANKED is the only tag with value 0; ZERO, DP and HV are exactly the tags above 9 |
| `ErrorTypes.NumeralIsCodeMod10` | NTD_TestJig/ErrorHandling.h:39-47 | for each numeral tag (ONE..NINE, ZERO) its value mod 10 is the numeral it shows |
| `ErrorTypes.Node.Copy` | NTD_TestJig/ErrorHandling.cpp:72-76 | the new node holds every field of the source node, `next` included, as `memcpy` does |
| `ErrorHandling.ErrorQueue.Valid` | NTD_TestJig/ErrorHandling.cpp:76-84 | the queue invariant: the head is followed by the listed nodes, each linked to the next, the last with a null `next`; `working` is the last node (the head when empty); `errorCount` is the node count mod 2^16 |
| `ErrorHandling.ErrorQueue.constructor` | NTD_TestJig/ErrorHandling.cpp:28-30 | before set-up the globals are null, null and 0 and the queue is empty |
| `ErrorHandling.ErrorQueue.SetupQueue` | NTD_TestJig/ErrorHandling.cpp:42-61 | a failed allocation halts with `queue` null; otherwise the queue is valid and empty, `working` is the head, and `errorCount` is 0 |
| `ErrorHandling.ErrorQueue.EnqueueError` | NTD_TestJig/ErrorHandling.cpp:69-85 | on success: the contents gain a copy of `*toPush` at the end, `working` is the fresh node appended to the list and linked from the old tail, the head is unchanged, and `errorCount` goes up by 1 mod 2^16. On failure: nothing changes. Only the old tail's `next` is written, and the invariant is kept |
| `ErrorHandling.ErrorQueue.FreeQueue` | NTD_TestJig/ErrorHandling.cpp:93-96 | every node, head included, is released exactly once, last node first and head last |
| `ErrorHandling.ErrorQueue.FreeQueueRecursive` | NTD_TestJig/ErrorHandling.cpp:104-111 | from the i-th node on, the rest of the chain is released, in reverse, before the node itself |
| `Testing.ChangeSegment` | NTD_TestJig/Testing.cpp:43-58 | nothing for a segment above 5. Otherwise five writes: outputs off first, then SC_0, SC_1 and SC_2 once each in that order, and outputs on last |
| `Testing.BlankDisplay` | NTD_TestJig/Testing.h:27 | the `blank_display()` macro: one display command with all six positions BLANK |
| `Testing.Cells` | NTD_TestJig/Testing.cpp:67-96 | the six positions a digit switch shows; all BLANK when the segment is above 5 |
| `Testing.SwitchDigit` | NTD_TestJig/Testing.cpp:67-96 | the per-segment `switch` issues one display command equal to `Cells(segment, digit)` (`digit` at `segment`, BLANK elsewhere), then one settle delay |
| `Testing.ReadEncoder` | NTD_TestJig/Testing.cpp:107-115 | the low four bits of the reading are the complement of the encoder lines (ENC_3 the high bit) |
| `Testing.Report` | NTD_TestJig/Testing.cpp:146-151 | sets `digit` and `error`, pushes the working record, and adds it to the offered records. The queue keeps it when the attempt's allocation succeeds |
| `Testing.ReportIf` | NTD_TestJig/Testing.cpp:153-159 | one check: the record is offered exactly when the condition holds |
| `Testing.CheckHighVoltage` | NTD_TestJig/Testing.cpp:132-138 | offers exactly the high-voltage phase's records on the selection snapshot |
| `Testing.CheckBlank` | NTD_TestJig/Testing.cpp:140-167 | offers exactly the blank phase's records on the blank snapshot |
| `Testing.CheckEncoder` | NTD_TestJig/Testing.cpp:178-195 | no record when the encoder reads `index`; otherwise OPEN of `index` if it reads 0, else SHORT to the value read |
| `Testing.CheckDigit` | NTD_TestJig/Testing.cpp:172-211 | offers exactly sweep step `index`'s records on that step's snapshot |
| `Testing.CheckDigits` | NTD_TestJig/Testing.cpp:169-212 | the loop over digits 1..9 offers the steps' records in ascending order and switches the digits on in that order |
| `Testing.CheckZero` | NTD_TestJig/Testing.cpp:214-243 | offers exactly the digit-zero phase's records |
| `Testing.CheckDecimalPoint` | NTD_TestJig/Testing.cpp:248-279 | offers exactly the decimal-point phase's records |
| `Testing.CheckLitDigits` | NTD_TestJig/Testing.cpp:214-279 | the digit-zero phase, then the decimal-point phase only when the segment is not 0 |
| `Testing.HvChecks` | NTD_TestJig/Testing.cpp:132-138 | the high-voltage phase's one check: HV line low gives the OPEN of HV |
| `Testing.BlankChecks` | NTD_TestJig/Testing.cpp:143-167 | the blank phase's checks in source order: encoder, zero line, DP line |
| `Testing.EncoderCheck` | NTD_TestJig/Testing.cpp:178-195 | a sweep step's encoder check: fires when the reading is not the step's digit; OPEN of the digit for 0, else SHORT to the value read |
| `Testing.StepChecks` | NTD_TestJig/Testing.cpp:172-211 | a sweep step's checks in source order: encoder, zero line, DP line |
| `Testing.ZeroChecks` | NTD_TestJig/Testing.cpp:214-243 | the digit-zero phase's checks in source order: zero line high (OPEN), DP line, encoder |
| `Testing.PointChecks` | NTD_TestJig/Testing.cpp:248-279 | the decimal-point phase's checks in source order: DP line high (OPEN), zero line, encoder |
| `Testing.Sweep` | NTD_TestJig/Testing.cpp:170-212 | the records of sweep steps 1..n, each step on its own snapshot, in ascending digit order |
| `Testing.ExpectedRecords` | NTD_TestJig/Testing.cpp:132-279 | the records one call offers, phase by phase; when the HV line is low the first of them is the OPEN of HV |
| `Testing.SweepTrace` | NTD_TestJig/Testing.cpp:170-176 | the digit sweep makes two actuator calls per step |
| `Testing.ExpectedTrace` | NTD_TestJig/Testing.cpp:123-280 | the actuator calls of one call: the selection writes plus 22 calls, plus 2 on segments with a decimal point; the last call blanks the display after the decimal point is lit, or is digit zero's settle delay on segment 0 |
| `Testing.Kept` | NTD_TestJig/ErrorHandling.cpp:72-73 | the records that survive allocation failures (`EnqueueError` returns when `malloc` fails): never more than were offered |
| `Testing.TestSegment` | NTD_TestJig/Testing.cpp:123-280 | the queue stays valid, keeps its head, and gains exactly the `ExpectedRecords` whose allocation succeeds, in order; the actuator calls are exactly `ExpectedTrace` |
| `TestingProperties.ReadEncoderComplement` | NTD_TestJig/Testing.cpp:107-115 | as written, ReadEncoder returns 255 minus the 4-bit encoder value, always in 240..255 |
| `TestingProperties.ZeroLineIsEncoderHighBit` | NTD_TestJig/PinDefs.h:34-37 | ENC_3 and SENSE_0 share A4: the zero line is low exactly when ReadEncoder reads 248 or more |
| `TestingProperties.ChangeSegmentOutputsOff` | NTD_TestJig/Testing.cpp:48-57 | SC_EN is written only first and last, and every select-line write happens while SC_EN was last driven LOW: the outputs stay off during the change |
| `TestingProperties.ChangeSegmentSelects` | NTD_TestJig/Testing.cpp:43-58 | for segments 0..5 the last levels driven on SC_0..SC_2 encode the segment and SC_EN ends HIGH; above 5 no select line is driven |
| `TestingProperties.FiredMember` | NTD_TestJig/Testing.cpp:153-159 | a record is offered by a list of checks exactly when a check that fires carries it |
| `TestingProperties.HvRecords` | NTD_TestJig/Testing.cpp:132-138 | one OPEN record with digit and test digit HV exactly when the HV line is low, none otherwise |
| `TestingProperties.BlankRecords` | NTD_TestJig/Testing.cpp:140-167 | exactly one SHORT tagged BLANKED per lit line (encoder reading non-zero, zero line low, DP line low), so none exactly when nothing is lit; the encoder short comes first and the DP short last |
| `TestingProperties.StepRecords` | NTD_TestJig/Testing.cpp:170-211 | per sweep step: the exact count of records. The first is the encoder record (none if it reads d, OPEN of d if it reads 0, else SHORT to the value). An OPEN appears exactly when the encoder reads 0. Then the zero short, and last the DP short |
| `TestingProperties.ZeroRecords` | NTD_TestJig/Testing.cpp:214-243 | exactly one record per failed expectation (zero line off, DP line low, encoder reading non-zero); zero line off exactly when the first record is the OPEN of ZERO, whatever the encoder reads; no other OPEN; DP short; encoder short last |
| `TestingProperties.PointRecords` | NTD_TestJig/Testing.cpp:248-279 | exactly one record per failed expectation (DP line off, zero line low, encoder reading non-zero); DP line off exactly when the first record is the OPEN of DP; no other OPEN; zero short; encoder short last |
| `TestingProperties.SweepShape` | NTD_TestJig/Testing.cpp:170-212 | after n steps: every record carries the segment, a real kind and a test digit 1..n; they come in ascending test-digit order; at most 3n of them |
| `TestingProperties.RecordsCarrySegment` | NTD_TestJig/Testing.cpp:123-280 | every record a call offers has `segment` equal to the argument and kind SHORT or OPEN, never NONE |
| `TestingProperties.RecordsInPhaseOrder` | NTD_TestJig/Testing.cpp:132-279 | records come in phase order: HV, blank, digits 1..9 ascending, zero, decimal point |
| `TestingProperties.RecordsBound` | NTD_TestJig/Testing.cpp:132-279 | one call offers at most 37 records, at most 34 on segment 0 |
| `TestingProperties.NoPointTestOnFirstSegment` | NTD_TestJig/Testing.cpp:245-246 | segment 0 never yields a record whose test digit is DP |
| `TestingProperties.AsWrittenStepAlwaysShort` | NTD_TestJig/Testing.cpp:179-194 | with ReadEncoder as written, every sweep step first reports a SHORT to a value of 240 or more, and only SHORTs |
| `TestingProperties.AsWrittenSweepNeverOpen` | NTD_TestJig/Testing.cpp:170-212 | with ReadEncoder as written, the sweep never reports an OPEN and yields at least one record per step |
| `TestingProperties.AsWrittenAlwaysReports` | NTD_TestJig/Testing.cpp:143-279 | with ReadEncoder as written, every call offers at least 11 records (12 on segments with a decimal point), even for a perfect tube |
| `TestingProperties.IntendedEncoder` | NTD_TestJig/Testing.cpp:98-115 | the reading the header describes: 15 minus the encoder bits, the highest digit pulled low, and 0 exactly when no encoder line is low |
| `TestingProperties.AsWrittenGoodStepReportsShort` | NTD_TestJig/Testing.cpp:107-115 | on a good tube showing digit d, the as-written reading makes the step report a SHORT to 240 + d |
| `TestingProperties.IntendedGoodStep` | NTD_TestJig/Testing.cpp:170-211 | on the same good tube, with the intended reading, a step with digit 1..7 reports nothing; digits 8 and 9 report only the zero short caused by A4 being both ENC_3 and SENSE_0 |
| `TestingProperties.KeptMember` | NTD_TestJig/ErrorHandling.cpp:72-73 | only offered records reach the queue |
| `TestingProperties.KeptAll` | NTD_TestJig/ErrorHandling.cpp:72-73 | every offered record reaches the queue exactly when every allocation attempt succeeds |
| `TestingProperties.KeptCount` | NTD_TestJig/ErrorHandling.cpp:72-73 | each failed allocation costs exactly one record: the queue gains the offered records less the number of failures |
| `TestingProperties.KeptInOrder` | NTD_TestJig/ErrorHandling.cpp:72-85 | the records that reach the queue are a subsequence of those offered: their order is kept |
| `TestingProperties.SwitchDigitDisplays` | NTD_TestJig/Testing.cpp:67-96 | SwitchDigit issues exactly one display command, showing `digit` at `segment` |
| `TestingProperties.SweepTraceShape` | NTD_TestJig/Testing.cpp:170-176 | the sweep makes 2 calls per step; digits 1..n are shown in ascending order at `segment`, each followed by the settle delay |
| `TestingProperties.TraceDisplays` | NTD_TestJig/Testing.cpp:143-254 | the tube is shown, in order: blank, digits 1..9, digit 0, and blank again only when the segment is not 0 |
| `TestingProperties.TraceDecimalPoint` | NTD_TestJig/Testing.cpp:245-254 | a decimal point is switched on exactly when the segment is not 0, and then always at index `segment - 1` |

## Findings

| source | as written | input that shows it | evidently intended | confidence | as-written member | corrected member |
|---|---|---|---|---|---|---|
| NTD_TestJig/Testing.cpp:107-115 | `output` is a `uint8_t`, so `\| 0xFF00` is lost on assignment and `~output` complements a byte: ReadEncoder returns 255 minus the encoder bits, always 240..255 | a good tube with digit 3 lit (encoder lines A0, A1 low, A2, A4 high): ReadEncoder returns 243, so the step reports a SHORT to 243 | the complement masked to four bits, the highest digit pulled low (3 here), as the function's header says | high (not executed) | `TestingProperties.AsWrittenGoodStepReportsShort` | `TestingProperties.IntendedGoodStep` |

Consequences of the as-written reading are proved in `TestingProperties.ReadEncoderComplement`, `AsWrittenStepAlwaysShort`, `AsWrittenSweepNeverOpen` and `AsWrittenAlwaysReports`. The sweep never reports an OPEN. Every call reports at least 11 records, even for a perfect tube.

`TestingProperties.IntendedEncoder` is the corrected reading. The per-phase lemmas (`StepRecords`, `BlankRecords`, `ZeroRecords`, `PointRecords`) take the reading as a parameter, so they hold for it as well.

`IntendedGoodStep` also shows what the pin map does to the intended reading. PinDefs.h:34 and PinDefs.h:37 both name A4, for ENC_3 and SENSE_0, and A3 is unused. So lighting digit 8 or 9 pulls the zero sense line low, and a correct tube reports a zero short on those steps. Which pin was meant cannot be told from the code, so this is noted here and not corrected.

## Left out

- `ParseQueue` (`ErrorHandling.cpp`) is not modelled, because it only prints the queue to the serial port.
- The serial messages of `SetupQueue` are not modelled, and neither is its endless LED loop. A failed head allocation returns `halted`, and nothing follows it.
- `malloc` and `free` are not modelled as memory:
  - allocation is an oracle, as described above;
  - `FreeQueue` returns the order in which nodes would be released.
  
  Nothing is deallocated, so use-after-free of `queue` and `working` after `FreeQueue` is not modelled. Like the source, `FreeQueue` leaves `queue`, `working` and `errorCount` as they were.
- `EnqueueError` requires `toPush.next == null`. The source accepts any record, but `memcpy` copies `next` too, so a record with a non-null `next` would link foreign nodes into the list. `TestSegment` always pushes a record with `next == NULL`.
- `digitalRead` is replaced by the snapshots. The model assumes that the pins do not change between one actuation and the next. The source reads the encoder up to three times in one check and each sense line once.
- Time is not modelled. `delay` calls appear in the actuator trace with their millisecond argument, and nothing else.
- The nixie driver is not modelled, and `NixieDriver.h` is not part of this model. `displayDigits`, `setDecimalPoint` and `BLANK` appear only as recorded commands.
- The declared range of the `segment` argument is 0..5, but the code never checks it in `TestSegment`. For a segment above 5:
  - `ChangeSegment` writes nothing;
  - `SwitchDigit` blanks the display;
  - every check still runs and reports with that segment number.
  
  The model follows the code.
- The fields of the local `err` in `TestSegment` start uninitialised in C. The model gives them NONE and BLANKED. Every push sets the fields it reports first, as `TestingProperties.RecordsCarrySegment` and the per-phase lemmas show.
- `TestSegment` is one C function. The model splits its body into one method per phase, in source order: `CheckHighVoltage`, `CheckBlank`, `CheckDigits` (the `for` loop, one `CheckDigit` per step), and `CheckLitDigits` (digit 0 and the decimal point).
- Testing.ReadEncoder: its contract states only that the low four bits are the complemented encoder lines. The full result (255 minus the encoder value, so 240..255) is proved separately in `TestingProperties.ReadEncoderComplement`. Put in the contract, it would make the encoder-open branch of the sweep check unreachable for every caller, and the model keeps that branch as the source writes it.
- `Testing.TestSegment` keeps the as-written `ReadEncoder`, as the source does. `IntendedEncoder` is proved about per step, but it is not threaded through a whole call.
- `Digit_et` fields are held as bytes. The in-memory width of the enumeration is not modelled.
