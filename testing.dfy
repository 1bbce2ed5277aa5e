/** The segment test of Testing.cpp: segment selection, digit switching,
    the priority-encoder read and TestSegment's phase sequence, which pushes
    a fault record onto the queue for every anomaly it sees. */
module Testing {
  import opened ErrorTypes
  import opened ErrorHandling

  // Arduino Uno pin numbers (the analogue pins A0..A5 are 14..19).
  const A0 := 14
  const A1 := 15
  const A2 := 16
  const A4 := 18
  const A5 := 19

  // Segment-select lines (PinDefs.h).
  const SC_EN := 7
  const SC_0 := 11
  const SC_1 := 12
  const SC_2 := 13

  // Priority-encoder and sense lines (PinDefs.h). ENC_3 and SENSE_0 are both A4.
  const ENC_0 := A0
  const ENC_1 := A1
  const ENC_2 := A2
  const ENC_3 := A4
  const SENSE_0 := A4
  const SENSE_DP := A5
  const SENSE_HV := 2

  /** SETTLE_TIME from Testing.h, in milliseconds. */
  const SETTLE_TIME := 10
  /** The literal wait after ChangeSegment in TestSegment, in milliseconds. */
  const SELECT_WAIT := 10

  /** What `digitalRead` returns. */
  type Level = x: int | 0 <= x <= 1
  const LOW: Level := 0
  const HIGH: Level := 1

  /** The levels on the input pins at one moment, by pin number. */
  type Pins = map<int, Level>

  predicate Sampled(p: Pins)
  {
    ENC_0 in p && ENC_1 in p && ENC_2 in p && ENC_3 in p && SENSE_0 in p && SENSE_DP in p && SENSE_HV in p
  }

  // TestSegment reads the pins after each of its 13 actuations. Snapshot k
  // holds what every read made after actuation k returns.
  const SNAP_SELECT := 0
  const SNAP_BLANK := 1
  const SNAP_ZERO := 11
  const SNAP_DP := 12
  const SNAPSHOTS := 13

  /** The snapshot taken after digit d (1..9) is switched on. */
  function SnapDigit(d: int): int
  {
    SNAP_BLANK + d
  }

  predicate Observed(snaps: seq<Pins>)
  {
    |snaps| == SNAPSHOTS && forall k :: 0 <= k < |snaps| ==> Sampled(snaps[k])
  }

  /** One position of a `displayDigits` command: a digit, or the driver's BLANK. */
  datatype Cell = Blank | Show(value: int)

  /** The actuator calls, in the order the test issues them. */
  datatype Action =
    | DigitalWrite(pin: int, value: int)
    | DisplayDigits(cells: seq<Cell>)
    | SetDecimalPoint(index: int, on: bool)
    | Delay(ms: int)

  /** The `blank_display()` macro. */
  function BlankDisplay(): (a: Action)
    ensures a.DisplayDigits? && |a.cells| == 6 && forall i :: 0 <= i < 6 ==> a.cells[i] == Blank
  {
    DisplayDigits([Blank, Blank, Blank, Blank, Blank, Blank])
  }

  /** Six display cells: `digit` at position `segment`, BLANK elsewhere. */
  function Cells(segment: Byte, digit: int): (cells: seq<Cell>)
    ensures |cells| == 6
    ensures segment > 5 ==> cells == BlankDisplay().cells
  {
    seq(6, i => if i == segment then Show(digit) else Blank)
  }

  /** `segment & (1 << k)` as a C int. */
  function SelectBit(segment: Byte, k: nat): int
    requires k < 8
  {
    ((segment as bv8) & ((1 as bv8) << k)) as int
  }

  /** The level the last write in `acts` drove onto `pin`; `digitalWrite`
      drives LOW for the value 0 and HIGH for any other value. */
  function DrivenLevel(acts: seq<Action>, pin: int): Option<Level>
  {
    if acts == [] then None
    else
      var last := acts[|acts| - 1];
      if last.DigitalWrite? && last.pin == pin then Some(if last.value == 0 then LOW else HIGH)
      else DrivenLevel(acts[..|acts| - 1], pin)
  }

  /** The 3-bit code the segment multiplexer sees once `acts` are done. */
  function SelectCode(acts: seq<Action>): Option<int>
  {
    match (DrivenLevel(acts, SC_0), DrivenLevel(acts, SC_1), DrivenLevel(acts, SC_2))
    case (Some(b0), Some(b1), Some(b2)) => Some(b0 + 2 * b1 + 4 * b2)
    case _ => None
  }

  /** ChangeSegment: with outputs off, drive the select code, then outputs on.
      Segments above 5 are ignored. */
  function ChangeSegment(segment: Byte): (acts: seq<Action>)
    ensures segment > 5 <==> acts == []
    ensures forall a :: a in acts ==> a.DigitalWrite? && a.pin in {SC_EN, SC_0, SC_1, SC_2}
    ensures segment <= 5 ==> acts[0] == DigitalWrite(SC_EN, LOW) && acts[|acts| - 1] == DigitalWrite(SC_EN, HIGH)
    ensures forall i :: 0 <= i < |acts| && acts[i].pin != SC_EN ==> 0 < i < |acts| - 1
    ensures segment <= 5 ==> |acts| == 5 && acts[1].pin == SC_0 && acts[2].pin == SC_1 && acts[3].pin == SC_2
  {
    if segment > 5 then []
    else
      [ DigitalWrite(SC_EN, LOW),
        DigitalWrite(SC_0, SelectBit(segment, 0)),
        DigitalWrite(SC_1, SelectBit(segment, 1)),
        DigitalWrite(SC_2, SelectBit(segment, 2)),
        DigitalWrite(SC_EN, HIGH) ]
  }

  /** SwitchDigit: show `digit` at position `segment` and BLANK elsewhere
      (everything BLANK for a segment above 5), then wait to settle. */
  function SwitchDigit(segment: Byte, digit: Byte): (acts: seq<Action>)
    ensures |acts| == 2 && acts[1] == Delay(SETTLE_TIME)
    ensures acts[0] == DisplayDigits(Cells(segment, digit))
  {
    var show :=
      match segment
      case 0 => DisplayDigits([Show(digit), Blank, Blank, Blank, Blank, Blank])
      case 1 => DisplayDigits([Blank, Show(digit), Blank, Blank, Blank, Blank])
      case 2 => DisplayDigits([Blank, Blank, Show(digit), Blank, Blank, Blank])
      case 3 => DisplayDigits([Blank, Blank, Blank, Show(digit), Blank, Blank])
      case 4 => DisplayDigits([Blank, Blank, Blank, Blank, Show(digit), Blank])
      case 5 => DisplayDigits([Blank, Blank, Blank, Blank, Blank, Show(digit)])
      case _ => BlankDisplay();
    assert show.DisplayDigits? && |show.cells| == 6;
    assert forall i :: 0 <= i < 6 ==> show.cells[i] == Cells(segment, digit)[i];
    assert show.cells == Cells(segment, digit);
    [show, Delay(SETTLE_TIME)]
  }

  /** ReadEncoder, as written: the four encoder lines are packed into an
      AVR `int` (16 bits) and or-ed with 0xFF00, the result is stored in a
      `uint8_t` (keeping the low byte), complemented after promotion to
      `int`, and returned as a `uint8_t`. */
  function ReadEncoder(p: Pins): (b: Byte)
    requires Sampled(p)
    ensures b % 16 == 15 - EncoderBits(p)
  {
    var packed: bv16 :=
      ((p[ENC_3] as bv16) << 3) | ((p[ENC_2] as bv16) << 2) | ((p[ENC_1] as bv16) << 1) | (p[ENC_0] as bv16)
      | 0xFF00;
    var output: bv8 := (packed & 0xFF) as bv8;
    var complemented: bv16 := !(output as bv16);
    (complemented & 0xFF) as int
  }

  /** The encoder lines read as a 4-bit number, ENC_3 the high bit. */
  function EncoderBits(p: Pins): (b: int)
    requires Sampled(p)
    ensures 0 <= b <= 15
  {
    8 * (p[ENC_3] as int) + 4 * (p[ENC_2] as int) + 2 * (p[ENC_1] as int) + (p[ENC_0] as int)
  }

  // ---------------------------------------------------------------------
  // Classification. Every check in TestSegment has the shape
  // `if (condition) { err.digit = ...; err.error = ...; EnqueueError(&err); }`:
  // a Check pairs the condition with the record it enqueues, and a phase is
  // the list of its checks in source order. A phase's inputs are the encoder
  // value `enc` and the levels of the zero and decimal-point sense lines,
  // which are active low.

  datatype Check = Check(fires: bool, record: Record)

  /** What one check enqueues. */
  function Emit(c: Check): seq<Record>
  {
    if c.fires then [c.record] else []
  }

  /** What a list of checks enqueues, in order. */
  function Fired(checks: seq<Check>): seq<Record>
  {
    if checks == [] then [] else Emit(checks[0]) + Fired(checks[1..])
  }

  /** The zero line is on while `test` should leave it off. */
  function ZeroLit(segment: Byte, test: Byte, zero: Level): Check
  {
    Check(zero == LOW, Record(SHORT, segment, ZERO.Code(), test))
  }

  /** The decimal-point line is on while `test` should leave it off. */
  function PointLit(segment: Byte, test: Byte, dp: Level): Check
  {
    Check(dp == LOW, Record(SHORT, segment, DP.Code(), test))
  }

  /** The encoder reads a digit while `test` should leave every digit off. */
  function EncoderLit(segment: Byte, test: Byte, enc: Byte): Check
  {
    Check(enc != 0, Record(SHORT, segment, enc, test))
  }

  /** The encoder check of sweep step `d`: no reading is an open of `d`,
      any other wrong reading a short to the digit read. */
  function EncoderCheck(segment: Byte, d: Byte, enc: Byte): Check
  {
    Check(enc != d, if enc == 0 then Record(OPEN, segment, d, d) else Record(SHORT, segment, enc, d))
  }

  /** High-voltage check after segment selection: the HV sense line low is an open. */
  function HvChecks(segment: Byte, hv: Level): seq<Check>
  {
    [Check(hv == LOW, Record(OPEN, segment, HV.Code(), HV.Code()))]
  }

  /** Blank check: encoder, zero line, DP line must all be off. */
  function BlankChecks(segment: Byte, enc: Byte, zero: Level, dp: Level): seq<Check>
  {
    [EncoderLit(segment, BLANKED.Code(), enc), ZeroLit(segment, BLANKED.Code(), zero),
     PointLit(segment, BLANKED.Code(), dp)]
  }

  /** One sweep step with digit `d` on: the encoder check, then the zero and DP lines. */
  function StepChecks(segment: Byte, d: Byte, enc: Byte, zero: Level, dp: Level): seq<Check>
  {
    [EncoderCheck(segment, d, enc), ZeroLit(segment, d, zero), PointLit(segment, d, dp)]
  }

  /** Digit-zero check: the zero line must be on; then the DP line and the encoder must be off. */
  function ZeroChecks(segment: Byte, enc: Byte, zero: Level, dp: Level): seq<Check>
  {
    [Check(zero == HIGH, Record(OPEN, segment, ZERO.Code(), ZERO.Code())),
     PointLit(segment, ZERO.Code(), dp), EncoderLit(segment, ZERO.Code(), enc)]
  }

  /** Decimal-point check: the DP line must be on; then the zero line and the encoder must be off. */
  function PointChecks(segment: Byte, enc: Byte, zero: Level, dp: Level): seq<Check>
  {
    [Check(dp == HIGH, Record(OPEN, segment, DP.Code(), DP.Code())),
     ZeroLit(segment, DP.Code(), zero), EncoderLit(segment, DP.Code(), enc)]
  }

  // Each phase on the snapshot taken for it.

  function HvAt(segment: Byte, p: Pins): seq<Record>
    requires Sampled(p)
  {
    Fired(HvChecks(segment, p[SENSE_HV]))
  }

  function BlankAt(segment: Byte, p: Pins): seq<Record>
    requires Sampled(p)
  {
    Fired(BlankChecks(segment, ReadEncoder(p), p[SENSE_0], p[SENSE_DP]))
  }

  function StepAt(segment: Byte, d: Byte, p: Pins): seq<Record>
    requires Sampled(p)
  {
    Fired(StepChecks(segment, d, ReadEncoder(p), p[SENSE_0], p[SENSE_DP]))
  }

  function ZeroAt(segment: Byte, p: Pins): seq<Record>
    requires Sampled(p)
  {
    Fired(ZeroChecks(segment, ReadEncoder(p), p[SENSE_0], p[SENSE_DP]))
  }

  function PointAt(segment: Byte, p: Pins): seq<Record>
    requires Sampled(p)
  {
    Fired(PointChecks(segment, ReadEncoder(p), p[SENSE_0], p[SENSE_DP]))
  }

  /** The records of sweep steps 1..n, in ascending digit order. */
  function Sweep(segment: Byte, snaps: seq<Pins>, n: nat): seq<Record>
    requires Observed(snaps) && n <= 9
  {
    if n == 0 then [] else Sweep(segment, snaps, n - 1) + StepAt(segment, n, snaps[SnapDigit(n)])
  }

  /** Every record TestSegment offers to the queue, in order, given the pin snapshots. */
  function ExpectedRecords(segment: Byte, snaps: seq<Pins>): (rs: seq<Record>)
    requires Observed(snaps)
    ensures snaps[SNAP_SELECT][SENSE_HV] == LOW ==> |rs| > 0 && rs[0] == Record(OPEN, segment, HV.Code(), HV.Code())
  {
    HvAt(segment, snaps[SNAP_SELECT])
    + BlankAt(segment, snaps[SNAP_BLANK])
    + Sweep(segment, snaps, 9)
    + ZeroAt(segment, snaps[SNAP_ZERO])
    + (if segment == 0 then [] else PointAt(segment, snaps[SNAP_DP]))
  }

  /** The actuator calls of sweep steps 1..n. */
  function SweepTrace(segment: Byte, n: nat): (t: seq<Action>)
    requires n <= 9
    ensures |t| == 2 * n
  {
    if n == 0 then [] else SweepTrace(segment, n - 1) + SwitchDigit(segment, n)
  }

  /** Every actuator call TestSegment makes, in order. */
  function ExpectedTrace(segment: Byte): (t: seq<Action>)
    ensures |t| == |ChangeSegment(segment)| + 22 + (if segment == 0 then 0 else 2)
    ensures t[|t| - 1] == if segment == 0 then Delay(SETTLE_TIME) else BlankDisplay()
  {
    ChangeSegment(segment) + [Delay(SELECT_WAIT)] + [BlankDisplay()] + SweepTrace(segment, 9)
    + SwitchDigit(segment, 0)
    + (if segment == 0 then [] else [SetDecimalPoint(segment - 1, true), BlankDisplay()])
  }

  /** The records that reach the queue when attempt `from + i` to enqueue
      `rs[i]` succeeds exactly when `ok(from + i)`. */
  function Kept(rs: seq<Record>, ok: nat -> bool, from: nat): (ks: seq<Record>)
    ensures |ks| <= |rs|
    decreases |rs|
  {
    if rs == [] then []
    else (if ok(from) then [rs[0]] else []) + Kept(rs[1..], ok, from + 1)
  }

  lemma {:induction false} KeptAppend(a: seq<Record>, b: seq<Record>, ok: nat -> bool, from: nat)
    ensures Kept(a + b, ok, from) == Kept(a, ok, from) + Kept(b, ok, from + |a|)
    decreases |a|
  {
    if a != [] {
      assert (a + b)[1..] == a[1..] + b;
      KeptAppend(a[1..], b, ok, from + 1);
    } else {
      assert a + b == b;
    }
  }

  lemma KeptOne(r: Record, ok: nat -> bool, from: nat)
    ensures Kept([r], ok, from) == if ok(from) then [r] else []
  {
    assert [r][1..] == [];
  }

  lemma AppendAssoc<T>(a: seq<T>, b: seq<T>, c: seq<T>)
    ensures a + (b + c) == a + b + c
  {
  }

  lemma {:induction false} FiredThree(cs: seq<Check>)
    requires |cs| == 3
    ensures Fired(cs) == Emit(cs[0]) + Emit(cs[1]) + Emit(cs[2])
  {
    assert cs[1..][1..] == cs[2..] && cs[2..][1..] == [];
    assert Fired(cs[2..]) == Emit(cs[2]) + [];
  }

  lemma AppendAssoc3<T>(a: seq<T>, b: seq<T>, c: seq<T>, d: seq<T>)
    ensures a + (b + c + d) == a + b + c + d
  {
  }

  // ---------------------------------------------------------------------
  // The imperative test.

  /** What TestSegment keeps true of the queue: `pushed` is every record
      offered to it so far, `attempt` their number, and the queue holds the
      records `base` it had before plus those whose allocation succeeded. */
  ghost predicate Tracks(q: ErrorQueue, err: Node, alloc: nat -> bool, attempt: nat,
                         base: seq<Record>, pushed: seq<Record>)
    reads q, err`next
  {
    && err.next == null && err !in q.Repr
    && attempt == |pushed| && q.Contents == base + Kept(pushed, alloc, 0)
  }

  /** One report in TestSegment: `err.digit = digit; err.error = error;
      EnqueueError(&err);`, where `alloc(attempt)` says whether the enqueue's
      `malloc` succeeds. */
  method Report(q: ErrorQueue, err: Node, error: ErrKind, digit: Byte, alloc: nat -> bool, attempt: nat,
                ghost base: seq<Record>, ghost pushed: seq<Record>)
    returns (next: nat, ghost pushed': seq<Record>)
    requires q.Valid() && Tracks(q, err, alloc, attempt, base, pushed)
    modifies q, q.working`next, err`digit, err`error
    ensures q.Valid() && Tracks(q, err, alloc, next, base, pushed') && (q.working == old(q.working) || fresh(q.working))
    ensures q.queue == old(q.queue)
    ensures pushed' == pushed + [Record(error, err.segment, digit, err.testDigit)]
  {
    err.digit := digit;
    err.error := error;
    ghost var r := err.Value();
    q.EnqueueError(err, alloc(attempt));
    assert err.Value() == r;
    KeptAppend(pushed, [r], alloc, 0);
    KeptOne(r, alloc, attempt);
    AppendAssoc(base, Kept(pushed, alloc, 0), Kept([r], alloc, attempt));
    next := attempt + 1;
    pushed' := pushed + [r];
  }

  /** One check: report `error` and `digit` when `cond` holds. */
  method ReportIf(q: ErrorQueue, err: Node, cond: bool, error: ErrKind, digit: Byte, alloc: nat -> bool,
                  attempt: nat, ghost segment: Byte, ghost test: Byte, ghost base: seq<Record>, ghost pushed: seq<Record>)
    returns (next: nat, ghost pushed': seq<Record>)
    requires q.Valid() && Tracks(q, err, alloc, attempt, base, pushed) && err.segment == segment && err.testDigit == test
    modifies q, q.working`next, err`digit, err`error
    ensures q.Valid() && Tracks(q, err, alloc, next, base, pushed') && (q.working == old(q.working) || fresh(q.working))
    ensures q.queue == old(q.queue)
    ensures err.segment == segment && err.testDigit == test
    ensures pushed' == pushed + Emit(Check(cond, Record(error, segment, digit, test)))
  {
    next, pushed' := attempt, pushed;
    if cond {
      next, pushed' := Report(q, err, error, digit, alloc, attempt, base, pushed);
    }
  }

  /** The high-voltage check (`err.testDigit` is set inside the branch, as in the source). */
  method CheckHighVoltage(q: ErrorQueue, err: Node, ghost segment: Byte, snaps: seq<Pins>, alloc: nat -> bool,
                          attempt: nat, ghost base: seq<Record>, ghost pushed: seq<Record>)
    returns (next: nat, ghost pushed': seq<Record>)
    requires Observed(snaps) && q.Valid() && Tracks(q, err, alloc, attempt, base, pushed) && err.segment == segment
    modifies q, q.working`next, err`testDigit, err`digit, err`error
    ensures q.Valid() && Tracks(q, err, alloc, next, base, pushed') && (q.working == old(q.working) || fresh(q.working))
    ensures q.queue == old(q.queue)
    ensures err.segment == segment
    ensures pushed' == pushed + HvAt(segment, snaps[SNAP_SELECT])
  {
    var pins := snaps[SNAP_SELECT];
    assert Fired(HvChecks(segment, pins[SENSE_HV])) == Emit(HvChecks(segment, pins[SENSE_HV])[0]) + [];
    next, pushed' := attempt, pushed;
    if pins[SENSE_HV] == LOW {
      err.testDigit := HV.Code();
      next, pushed' := Report(q, err, OPEN, HV.Code(), alloc, next, base, pushed');
    }
  }

  /** The blank check: any encoder value, the zero line and the DP line are shorts. */
  method CheckBlank(q: ErrorQueue, err: Node, ghost segment: Byte, snaps: seq<Pins>, alloc: nat -> bool,
                    attempt: nat, ghost base: seq<Record>, ghost pushed: seq<Record>)
    returns (next: nat, ghost pushed': seq<Record>)
    requires Observed(snaps) && q.Valid() && Tracks(q, err, alloc, attempt, base, pushed) && err.segment == segment
    modifies q, q.working`next, err`testDigit, err`digit, err`error
    ensures q.Valid() && Tracks(q, err, alloc, next, base, pushed') && (q.working == old(q.working) || fresh(q.working))
    ensures q.queue == old(q.queue)
    ensures err.segment == segment
    ensures pushed' == pushed + BlankAt(segment, snaps[SNAP_BLANK])
  {
    var pins := snaps[SNAP_BLANK];
    err.testDigit := BLANKED.Code();
    ghost var test, p1, p2 := BLANKED.Code(), pushed, pushed;
    next, p1 := ReportIf(q, err, ReadEncoder(pins) != 0, SHORT, ReadEncoder(pins), alloc, attempt, segment, test, base, pushed);
    next, p2 := ReportIf(q, err, pins[SENSE_0] == LOW, SHORT, ZERO.Code(), alloc, next, segment, test, base, p1);
    next, pushed' := ReportIf(q, err, pins[SENSE_DP] == LOW, SHORT, DP.Code(), alloc, next, segment, test, base, p2);
    ghost var cs := BlankChecks(segment, ReadEncoder(pins), pins[SENSE_0], pins[SENSE_DP]);
    FiredThree(cs);
    AppendAssoc3(pushed, Emit(cs[0]), Emit(cs[1]), Emit(cs[2]));
  }

  /** The encoder check of one sweep step. */
  method CheckEncoder(q: ErrorQueue, err: Node, ghost segment: Byte, index: Byte, pins: Pins, alloc: nat -> bool,
                      attempt: nat, ghost base: seq<Record>, ghost pushed: seq<Record>)
    returns (next: nat, ghost pushed': seq<Record>)
    requires Sampled(pins) && q.Valid() && Tracks(q, err, alloc, attempt, base, pushed)
    requires err.segment == segment && err.testDigit == index
    modifies q, q.working`next, err`digit, err`error
    ensures q.Valid() && Tracks(q, err, alloc, next, base, pushed') && (q.working == old(q.working) || fresh(q.working))
    ensures q.queue == old(q.queue)
    ensures err.segment == segment && err.testDigit == index
    ensures pushed' == pushed + Emit(EncoderCheck(segment, index, ReadEncoder(pins)))
  {
    next, pushed' := attempt, pushed;
    if ReadEncoder(pins) != index {
      if ReadEncoder(pins) == 0 {
        next, pushed' := Report(q, err, OPEN, index, alloc, next, base, pushed');
      } else {
        next, pushed' := Report(q, err, SHORT, ReadEncoder(pins), alloc, next, base, pushed');
      }
    }
  }

  /** One step of the sweep: digit `index` is switched on and checked. */
  method CheckDigit(q: ErrorQueue, err: Node, ghost segment: Byte, index: Byte, snaps: seq<Pins>, alloc: nat -> bool,
                    attempt: nat, ghost base: seq<Record>, ghost pushed: seq<Record>)
    returns (next: nat, ghost pushed': seq<Record>)
    requires 1 <= index <= 9 && Observed(snaps) && q.Valid() && Tracks(q, err, alloc, attempt, base, pushed) && err.segment == segment
    modifies q, q.working`next, err`testDigit, err`digit, err`error
    ensures q.Valid() && Tracks(q, err, alloc, next, base, pushed') && (q.working == old(q.working) || fresh(q.working))
    ensures q.queue == old(q.queue)
    ensures err.segment == segment
    ensures pushed' == pushed + StepAt(segment, index, snaps[SnapDigit(index)])
  {
    var pins := snaps[SnapDigit(index)];
    err.testDigit := index;
    ghost var p1, p2 := pushed, pushed;
    next, p1 := CheckEncoder(q, err, segment, index, pins, alloc, attempt, base, pushed);
    next, p2 := ReportIf(q, err, pins[SENSE_0] == LOW, SHORT, ZERO.Code(), alloc, next, segment, index, base, p1);
    next, pushed' := ReportIf(q, err, pins[SENSE_DP] == LOW, SHORT, DP.Code(), alloc, next, segment, index, base, p2);
    ghost var cs := StepChecks(segment, index, ReadEncoder(pins), pins[SENSE_0], pins[SENSE_DP]);
    FiredThree(cs);
    AppendAssoc3(pushed, Emit(cs[0]), Emit(cs[1]), Emit(cs[2]));
  }

  /** The digit-zero check: the zero line off is an open; then DP line and encoder shorts. */
  method CheckZero(q: ErrorQueue, err: Node, ghost segment: Byte, snaps: seq<Pins>, alloc: nat -> bool,
                   attempt: nat, ghost base: seq<Record>, ghost pushed: seq<Record>)
    returns (next: nat, ghost pushed': seq<Record>)
    requires Observed(snaps) && q.Valid() && Tracks(q, err, alloc, attempt, base, pushed) && err.segment == segment
    modifies q, q.working`next, err`testDigit, err`digit, err`error
    ensures q.Valid() && Tracks(q, err, alloc, next, base, pushed') && (q.working == old(q.working) || fresh(q.working))
    ensures q.queue == old(q.queue)
    ensures err.segment == segment
    ensures pushed' == pushed + ZeroAt(segment, snaps[SNAP_ZERO])
  {
    var pins := snaps[SNAP_ZERO];
    err.testDigit := ZERO.Code();
    ghost var test, p1, p2 := ZERO.Code(), pushed, pushed;
    next, p1 := ReportIf(q, err, pins[SENSE_0] == HIGH, OPEN, ZERO.Code(), alloc, attempt, segment, test, base, pushed);
    next, p2 := ReportIf(q, err, pins[SENSE_DP] == LOW, SHORT, DP.Code(), alloc, next, segment, test, base, p1);
    next, pushed' := ReportIf(q, err, ReadEncoder(pins) != 0, SHORT, ReadEncoder(pins), alloc, next, segment, test, base, p2);
    ghost var cs := ZeroChecks(segment, ReadEncoder(pins), pins[SENSE_0], pins[SENSE_DP]);
    FiredThree(cs);
    AppendAssoc3(pushed, Emit(cs[0]), Emit(cs[1]), Emit(cs[2]));
  }

  /** The decimal-point check: the DP line off is an open; then zero line and encoder shorts. */
  method CheckDecimalPoint(q: ErrorQueue, err: Node, ghost segment: Byte, snaps: seq<Pins>, alloc: nat -> bool,
                           attempt: nat, ghost base: seq<Record>, ghost pushed: seq<Record>)
    returns (next: nat, ghost pushed': seq<Record>)
    requires Observed(snaps) && q.Valid() && Tracks(q, err, alloc, attempt, base, pushed) && err.segment == segment
    modifies q, q.working`next, err`testDigit, err`digit, err`error
    ensures q.Valid() && Tracks(q, err, alloc, next, base, pushed') && (q.working == old(q.working) || fresh(q.working))
    ensures q.queue == old(q.queue)
    ensures pushed' == pushed + PointAt(segment, snaps[SNAP_DP])
  {
    var pins := snaps[SNAP_DP];
    err.testDigit := DP.Code();
    ghost var test, p1, p2 := DP.Code(), pushed, pushed;
    next, p1 := ReportIf(q, err, pins[SENSE_DP] == HIGH, OPEN, DP.Code(), alloc, attempt, segment, test, base, pushed);
    next, p2 := ReportIf(q, err, pins[SENSE_0] == LOW, SHORT, ZERO.Code(), alloc, next, segment, test, base, p1);
    next, pushed' := ReportIf(q, err, ReadEncoder(pins) != 0, SHORT, ReadEncoder(pins), alloc, next, segment, test, base, p2);
    ghost var cs := PointChecks(segment, ReadEncoder(pins), pins[SENSE_0], pins[SENSE_DP]);
    FiredThree(cs);
    AppendAssoc3(pushed, Emit(cs[0]), Emit(cs[1]), Emit(cs[2]));
  }

  /** The sweep: digits 1 to 9 in turn, each switched on and checked. Returns
      the actuator calls made. */
  method CheckDigits(q: ErrorQueue, err: Node, segment: Byte, snaps: seq<Pins>, alloc: nat -> bool,
                     attempt: nat, ghost base: seq<Record>, ghost pushed: seq<Record>)
    returns (next: nat, ghost pushed': seq<Record>, trace: seq<Action>)
    requires Observed(snaps) && q.Valid() && Tracks(q, err, alloc, attempt, base, pushed) && err.segment == segment
    modifies q, q.working`next, err`testDigit, err`digit, err`error
    ensures q.Valid() && Tracks(q, err, alloc, next, base, pushed') && (q.working == old(q.working) || fresh(q.working))
    ensures q.queue == old(q.queue)
    ensures err.segment == segment
    ensures pushed' == pushed + Sweep(segment, snaps, 9)
    ensures trace == SweepTrace(segment, 9)
  {
    next, pushed', trace := attempt, pushed, [];
    var index: Byte := 1;
    while index < 10
      invariant 1 <= index <= 10
      invariant q.Valid() && Tracks(q, err, alloc, next, base, pushed') && (q.working == old(q.working) || fresh(q.working))
      invariant q.queue == old(q.queue)
      invariant err.segment == segment
      invariant pushed' == pushed + Sweep(segment, snaps, index - 1)
      invariant trace == SweepTrace(segment, index - 1)
    {
      trace := trace + SwitchDigit(segment, index);
      next, pushed' := CheckDigit(q, err, segment, index, snaps, alloc, next, base, pushed');
      AppendAssoc(pushed, Sweep(segment, snaps, index - 1), StepAt(segment, index, snaps[SnapDigit(index)]));
      index := index + 1;
    }
  }

  /** The checks with a lit element that is not a numeral: digit 0, then the
      decimal point, which the first segment does not have. Returns the
      actuator calls made. */
  method CheckLitDigits(q: ErrorQueue, err: Node, segment: Byte, snaps: seq<Pins>, alloc: nat -> bool,
                        attempt: nat, ghost base: seq<Record>, ghost pushed: seq<Record>)
    returns (next: nat, ghost pushed': seq<Record>, trace: seq<Action>)
    requires Observed(snaps) && q.Valid() && Tracks(q, err, alloc, attempt, base, pushed) && err.segment == segment
    modifies q, q.working`next, err`testDigit, err`digit, err`error
    ensures q.Valid() && Tracks(q, err, alloc, next, base, pushed') && (q.working == old(q.working) || fresh(q.working))
    ensures q.queue == old(q.queue)
    ensures pushed' == pushed + ZeroAt(segment, snaps[SNAP_ZERO])
                      + (if segment == 0 then [] else PointAt(segment, snaps[SNAP_DP]))
    ensures trace == SwitchDigit(segment, 0)
                     + (if segment == 0 then [] else [SetDecimalPoint(segment - 1, true), BlankDisplay()])
  {
    trace := SwitchDigit(segment, 0);
    next, pushed' := CheckZero(q, err, segment, snaps, alloc, attempt, base, pushed);

    // The first segment has no decimal point to test.
    if segment == 0 {
      assert pushed' + [] == pushed' && trace + [] == trace;
      return;
    }

    trace := trace + [SetDecimalPoint(segment - 1, true), BlankDisplay()];
    next, pushed' := CheckDecimalPoint(q, err, segment, snaps, alloc, next, base, pushed');
  }

  /** TestSegment on the queue `q`. `snaps` are the pin levels after each
      actuation; `alloc` decides, attempt by attempt, whether an enqueue's
      `malloc` succeeds. Returns the actuator calls made. */
  method TestSegment(segment: Byte, snaps: seq<Pins>, alloc: nat -> bool, q: ErrorQueue)
    returns (trace: seq<Action>)
    requires Observed(snaps)
    requires q.Valid()
    modifies q, q.working`next
    ensures q.Valid() && (q.working == old(q.working) || fresh(q.working))
    ensures q.queue == old(q.queue)
    ensures q.Contents == old(q.Contents) + Kept(ExpectedRecords(segment, snaps), alloc, 0)
    ensures trace == ExpectedTrace(segment)
  {
    var err := new Node(NONE, segment, BLANKED.Code(), BLANKED.Code(), null);
    ghost var base := q.Contents;
    ghost var pushed: seq<Record> := [];
    var attempt: nat := 0;

    trace := ChangeSegment(segment);
    trace := trace + [Delay(SELECT_WAIT)];
    attempt, pushed := CheckHighVoltage(q, err, segment, snaps, alloc, attempt, base, pushed);
    assert pushed == HvAt(segment, snaps[SNAP_SELECT]);

    trace := trace + [BlankDisplay()];
    attempt, pushed := CheckBlank(q, err, segment, snaps, alloc, attempt, base, pushed);
    var sweepTrace;
    attempt, pushed, sweepTrace := CheckDigits(q, err, segment, snaps, alloc, attempt, base, pushed);
    trace := trace + sweepTrace;

    var tailTrace;
    attempt, pushed, tailTrace := CheckLitDigits(q, err, segment, snaps, alloc, attempt, base, pushed);
    AppendAssoc(trace, SwitchDigit(segment, 0),
                if segment == 0 then [] else [SetDecimalPoint(segment - 1, true), BlankDisplay()]);
    trace := trace + tailTrace;
    assert pushed == ExpectedRecords(segment, snaps);
  }
}
