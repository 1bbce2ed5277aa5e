/** Properties of the segment test: what ReadEncoder returns as written,
    what each phase reports, what a whole TestSegment call offers to the
    queue, what reaches the queue when allocations fail, and the order of
    the actuator calls. */
module TestingProperties {
  import opened ErrorTypes
  import opened Testing

  // ---------------------------------------------------------------------
  // ReadEncoder as written.

  /** The `| 0xFF00` is lost in the `uint8_t`, so the complement keeps the
      high nibble set: the result is 255 - bits, never a digit number. */
  lemma ReadEncoderComplement(p: Pins)
    requires Sampled(p)
    ensures ReadEncoder(p) == 255 - EncoderBits(p)
    ensures 240 <= ReadEncoder(p) <= 255
  {
  }

  /** ENC_3 and SENSE_0 are the same pin (A4): the zero sense line is low
      exactly when the encoder's high bit is clear. */
  lemma ZeroLineIsEncoderHighBit(p: Pins)
    requires Sampled(p)
    ensures p[SENSE_0] == LOW <==> ReadEncoder(p) >= 248
  {
    ReadEncoderComplement(p);
  }

  // ---------------------------------------------------------------------
  // Segment selection.

  /** For segments 0..5 the multiplexer ends up on the segment's code with
      the outputs enabled; for any other segment no select line is driven. */
  lemma ChangeSegmentSelects(segment: Byte)
    ensures segment <= 5 ==> SelectCode(ChangeSegment(segment)) == Some(segment)
    ensures segment <= 5 ==> DrivenLevel(ChangeSegment(segment), SC_EN) == Some(HIGH)
    ensures segment > 5 ==> SelectCode(ChangeSegment(segment)) == None
  {
    var acts := ChangeSegment(segment);
    if segment <= 5 {
      var b0, b1, b2 := SelectBit(segment, 0), SelectBit(segment, 1), SelectBit(segment, 2);
      var first := [DigitalWrite(SC_EN, LOW), DigitalWrite(SC_0, b0)];
      var upTo1 := first + [DigitalWrite(SC_1, b1)];
      var upTo2 := upTo1 + [DigitalWrite(SC_2, b2)];
      assert acts == upTo2 + [DigitalWrite(SC_EN, HIGH)];
      assert acts[..|acts| - 1] == upTo2 && upTo2[..|upTo2| - 1] == upTo1 && upTo1[..|upTo1| - 1] == first;
      assert DrivenLevel(acts, SC_2) == Some(if b2 == 0 then LOW else HIGH);
      assert DrivenLevel(acts, SC_1) == DrivenLevel(upTo1, SC_1) == Some(if b1 == 0 then LOW else HIGH);
      assert DrivenLevel(acts, SC_0) == DrivenLevel(upTo1, SC_0) == DrivenLevel(first, SC_0);
      assert DrivenLevel(first, SC_0) == Some(if b0 == 0 then LOW else HIGH);
      match segment
      case 0 =>
      case 1 =>
      case 2 =>
      case 3 =>
      case 4 =>
      case 5 =>
    }
  }

  /** The outputs stay off while the select lines change: SC_EN is written
      only first (LOW) and last (HIGH), and every select-line write happens
      while the last level driven onto SC_EN is LOW. */
  lemma ChangeSegmentOutputsOff(segment: Byte)
    ensures forall i :: 0 < i < |ChangeSegment(segment)| - 1 ==> ChangeSegment(segment)[i].pin != SC_EN
    ensures forall i :: 0 < i < |ChangeSegment(segment)| - 1 ==> DrivenLevel(ChangeSegment(segment)[..i], SC_EN) == Some(LOW)
  {
    var acts := ChangeSegment(segment);
    forall i | 0 < i < |acts| - 1
      ensures DrivenLevel(acts[..i], SC_EN) == Some(LOW)
    {
      OffUntil(acts, i);
    }
  }

  /** Helper: in `acts`, SC_EN is driven LOW first and not written again before `i`. */
  lemma {:induction false} OffUntil(acts: seq<Action>, i: nat)
    requires 0 < i <= |acts| && acts[0] == DigitalWrite(SC_EN, LOW)
    requires forall k :: 0 < k < i ==> !(acts[k].DigitalWrite? && acts[k].pin == SC_EN)
    ensures DrivenLevel(acts[..i], SC_EN) == Some(LOW)
  {
    if i > 1 {
      assert acts[..i][..i - 1] == acts[..i - 1];
      OffUntil(acts, i - 1);
    }
  }

  // ---------------------------------------------------------------------
  // Checks and what they enqueue.

  /** A record is enqueued by a list of checks exactly when one of the
      checks that fires carries it. */
  lemma {:induction false} FiredMember(cs: seq<Check>, r: Record)
    ensures r in Fired(cs) <==> exists i :: 0 <= i < |cs| && cs[i].fires && cs[i].record == r
  {
    if cs != [] {
      FiredMember(cs[1..], r);
      if r in Fired(cs[1..]) {
        var i :| 0 <= i < |cs[1..]| && cs[1..][i].fires && cs[1..][i].record == r;
        assert cs[i + 1] == cs[1..][i];
      }
      if exists i :: 0 <= i < |cs| && cs[i].fires && cs[i].record == r {
        var i :| 0 <= i < |cs| && cs[i].fires && cs[i].record == r;
        if i > 0 {
          assert cs[1..][i - 1] == cs[i];
        }
      }
    }
  }

  /** At most one record per check. */
  lemma {:induction false} FiredLength(cs: seq<Check>)
    ensures |Fired(cs)| <= |cs|
  {
    if cs != [] {
      FiredLength(cs[1..]);
    }
  }

  /** Every record of a phase whose checks all carry `segment`, a real
      error kind and the test digit `test`, has them too. */
  predicate Stamped(rs: seq<Record>, segment: Byte, test: Byte)
  {
    forall r :: r in rs ==> r.segment == segment && r.error != NONE && r.testDigit == test
  }

  lemma FiredStamped(cs: seq<Check>, segment: Byte, test: Byte)
    requires forall i :: 0 <= i < |cs| ==>
               cs[i].record.segment == segment && cs[i].record.error != NONE && cs[i].record.testDigit == test
    ensures Stamped(Fired(cs), segment, test)
  {
    forall r | r in Fired(cs)
      ensures r.segment == segment && r.error != NONE && r.testDigit == test
    {
      FiredMember(cs, r);
    }
  }

  /** High-voltage phase: one OPEN record tagged HV exactly when the HV line is low. */
  lemma HvRecords(segment: Byte, hv: Level)
    ensures Fired(HvChecks(segment, hv)) == if hv == LOW then [Record(OPEN, segment, HV.Code(), HV.Code())] else []
  {
    var cs := HvChecks(segment, hv);
    assert cs[1..] == [];
  }

  /** Blank phase: one short per lit line, all tagged BLANKED; the encoder
      short (digit = the encoder value) first, the DP short last; nothing when
      nothing is lit. */
  lemma BlankRecords(segment: Byte, enc: Byte, zero: Level, dp: Level)
    ensures var rs := Fired(BlankChecks(segment, enc, zero, dp));
      && |rs| == (if enc != 0 then 1 else 0) + (if zero == LOW then 1 else 0) + (if dp == LOW then 1 else 0)
      && (forall r :: r in rs ==> r.error == SHORT && r.segment == segment && r.testDigit == BLANKED.Code())
      && (rs == [] <==> enc == 0 && zero == HIGH && dp == HIGH)
      && (enc != 0 ==> |rs| > 0 && rs[0] == Record(SHORT, segment, enc, BLANKED.Code()))
      && (zero == LOW ==> Record(SHORT, segment, ZERO.Code(), BLANKED.Code()) in rs)
      && (dp == LOW ==> |rs| > 0 && rs[|rs| - 1] == Record(SHORT, segment, DP.Code(), BLANKED.Code()))
  {
    FiredThree(BlankChecks(segment, enc, zero, dp));
  }

  /** Sweep step for digit `d`: at most three records, all tagged `d`. The
      first is about the encoder: none when it reads `d`, an OPEN of `d` when
      it reads nothing, otherwise a SHORT to the value read. Then the zero
      short and, last, the DP short. */
  lemma StepRecords(segment: Byte, d: Byte, enc: Byte, zero: Level, dp: Level)
    requires 1 <= d <= 9
    ensures var rs := Fired(StepChecks(segment, d, enc, zero, dp));
      && |rs| == (if enc != d then 1 else 0) + (if zero == LOW then 1 else 0) + (if dp == LOW then 1 else 0)
      && (forall r :: r in rs ==> r.segment == segment && r.testDigit == d && r.error != NONE)
      && (enc != d && enc == 0 ==> |rs| > 0 && rs[0] == Record(OPEN, segment, d, d))
      && (enc != d && enc != 0 ==> |rs| > 0 && rs[0] == Record(SHORT, segment, enc, d))
      && (Record(OPEN, segment, d, d) in rs <==> enc == 0)
      && (zero == LOW ==> Record(SHORT, segment, ZERO.Code(), d) in rs)
      && (dp == LOW ==> |rs| > 0 && rs[|rs| - 1] == Record(SHORT, segment, DP.Code(), d))
  {
    FiredThree(StepChecks(segment, d, enc, zero, dp));
  }

  /** Digit-zero phase: one record per failed expectation. The zero line off
      gives exactly one OPEN (digit and test digit ZERO), first, whatever the
      encoder reads; after it come the DP short and, last, the encoder short. */
  lemma ZeroRecords(segment: Byte, enc: Byte, zero: Level, dp: Level)
    ensures var rs := Fired(ZeroChecks(segment, enc, zero, dp));
      && |rs| == (if zero == HIGH then 1 else 0) + (if dp == LOW then 1 else 0) + (if enc != 0 then 1 else 0)
      && (forall r :: r in rs ==> r.segment == segment && r.testDigit == ZERO.Code() && r.error != NONE)
      && (zero == HIGH <==> |rs| > 0 && rs[0] == Record(OPEN, segment, ZERO.Code(), ZERO.Code()))
      && (forall i :: 0 <= i < |rs| && rs[i].error == OPEN ==> i == 0 && zero == HIGH)
      && (dp == LOW ==> Record(SHORT, segment, DP.Code(), ZERO.Code()) in rs)
      && (enc != 0 ==> |rs| > 0 && rs[|rs| - 1] == Record(SHORT, segment, enc, ZERO.Code()))
  {
    FiredThree(ZeroChecks(segment, enc, zero, dp));
  }

  /** Decimal-point phase: one record per failed expectation: the DP open
      first, then the zero short, then the encoder short. */
  lemma PointRecords(segment: Byte, enc: Byte, zero: Level, dp: Level)
    ensures var rs := Fired(PointChecks(segment, enc, zero, dp));
      && |rs| == (if dp == HIGH then 1 else 0) + (if zero == LOW then 1 else 0) + (if enc != 0 then 1 else 0)
      && (forall r :: r in rs ==> r.segment == segment && r.testDigit == DP.Code() && r.error != NONE)
      && (dp == HIGH <==> |rs| > 0 && rs[0] == Record(OPEN, segment, DP.Code(), DP.Code()))
      && (forall i :: 0 <= i < |rs| && rs[i].error == OPEN ==> i == 0 && dp == HIGH)
      && (zero == LOW ==> Record(SHORT, segment, ZERO.Code(), DP.Code()) in rs)
      && (enc != 0 ==> |rs| > 0 && rs[|rs| - 1] == Record(SHORT, segment, enc, DP.Code()))
  {
    FiredThree(PointChecks(segment, enc, zero, dp));
  }

  // ---------------------------------------------------------------------
  // A whole call.

  /** Where a test digit falls in the phase order: HV, BLANKED, 1..9, ZERO, DP. */
  function PhaseRank(test: Byte): (k: int)
    ensures 0 <= k <= 13
    ensures test <= 12 ==> (k == 12 <==> test == DP.Code())
  {
    if test == HV.Code() then 0
    else if test == BLANKED.Code() then 1
    else if test <= 9 then 1 + test
    else if test == ZERO.Code() then 11
    else if test == DP.Code() then 12
    else 13
  }

  predicate InPhaseOrder(rs: seq<Record>)
  {
    forall i, j :: 0 <= i < j < |rs| ==> PhaseRank(rs[i].testDigit) <= PhaseRank(rs[j].testDigit)
  }

  predicate RanksWithin(rs: seq<Record>, lo: int, hi: int)
  {
    forall r :: r in rs ==> lo <= PhaseRank(r.testDigit) <= hi
  }

  lemma OrderedConcat(a: seq<Record>, b: seq<Record>, lo: int, mid: int, hi: int)
    requires lo <= mid <= hi
    requires InPhaseOrder(a) && RanksWithin(a, lo, mid)
    requires InPhaseOrder(b) && RanksWithin(b, mid, hi)
    ensures InPhaseOrder(a + b) && RanksWithin(a + b, lo, hi)
  {
    forall r | r in a + b ensures lo <= PhaseRank(r.testDigit) <= hi {
      assert r in a || r in b;
    }
    forall i, j | 0 <= i < j < |a + b|
      ensures PhaseRank((a + b)[i].testDigit) <= PhaseRank((a + b)[j].testDigit)
    {
      if i < |a| && j >= |a| {
        assert (a + b)[i] in a && (a + b)[j] in b;
      }
    }
  }

  /** Records tagged with one test digit are in phase order. */
  lemma StampedOrdered(rs: seq<Record>, segment: Byte, test: Byte)
    requires Stamped(rs, segment, test)
    ensures InPhaseOrder(rs) && RanksWithin(rs, PhaseRank(test), PhaseRank(test))
  {
    forall i | 0 <= i < |rs| ensures rs[i].testDigit == test {
      assert rs[i] in rs;
    }
  }

  /** What the first n sweep steps offer: records with the segment, a real
      error kind and a test digit in 1..n, in ascending test-digit order, at
      most three per step. */
  predicate SweepLike(rs: seq<Record>, segment: Byte, n: nat)
  {
    && (forall r :: r in rs ==> r.segment == segment && r.error != NONE && 1 <= r.testDigit <= n)
    && InPhaseOrder(rs) && RanksWithin(rs, 2, n + 1)
    && |rs| <= 3 * n
  }

  lemma {:induction false} SweepShape(segment: Byte, snaps: seq<Pins>, n: nat)
    requires Observed(snaps) && n <= 9
    ensures SweepLike(Sweep(segment, snaps, n), segment, n)
  {
    if n > 0 {
      SweepShape(segment, snaps, n - 1);
      var prev, step := Sweep(segment, snaps, n - 1), StepAt(segment, n, snaps[SnapDigit(n)]);
      StepStamped(segment, n, snaps[SnapDigit(n)]);
      SweepExtends(segment, n, prev, step);
    }
  }

  /** The sequence reasoning behind SweepShape's step. */
  lemma SweepExtends(segment: Byte, n: Byte, prev: seq<Record>, step: seq<Record>)
    requires 1 <= n <= 9
    requires SweepLike(prev, segment, n - 1)
    requires Stamped(step, segment, n) && |step| <= 3
    ensures SweepLike(prev + step, segment, n)
  {
    StampedOrdered(step, segment, n);
    OrderedConcat(prev, step, 2, n + 1, n + 1);
  }

  /** One sweep step's records carry the segment, a real error kind and the
      step's digit; there are at most three. */
  lemma StepStamped(segment: Byte, d: Byte, p: Pins)
    requires Sampled(p)
    ensures Stamped(StepAt(segment, d, p), segment, d) && |StepAt(segment, d, p)| <= 3
  {
    var cs := StepChecks(segment, d, ReadEncoder(p), p[SENSE_0], p[SENSE_DP]);
    FiredStamped(cs, segment, d);
    FiredLength(cs);
  }

  /** Each phase's records carry the segment, a real error kind and the
      phase's test digit. */
  lemma PhasesStamped(segment: Byte, snaps: seq<Pins>)
    requires Observed(snaps)
    ensures Stamped(HvAt(segment, snaps[SNAP_SELECT]), segment, HV.Code())
    ensures Stamped(BlankAt(segment, snaps[SNAP_BLANK]), segment, BLANKED.Code())
    ensures Stamped(ZeroAt(segment, snaps[SNAP_ZERO]), segment, ZERO.Code())
    ensures Stamped(PointAt(segment, snaps[SNAP_DP]), segment, DP.Code())
  {
    var p0, p1, p11, p12 := snaps[SNAP_SELECT], snaps[SNAP_BLANK], snaps[SNAP_ZERO], snaps[SNAP_DP];
    FiredStamped(HvChecks(segment, p0[SENSE_HV]), segment, HV.Code());
    FiredStamped(BlankChecks(segment, ReadEncoder(p1), p1[SENSE_0], p1[SENSE_DP]), segment, BLANKED.Code());
    FiredStamped(ZeroChecks(segment, ReadEncoder(p11), p11[SENSE_0], p11[SENSE_DP]), segment, ZERO.Code());
    FiredStamped(PointChecks(segment, ReadEncoder(p12), p12[SENSE_0], p12[SENSE_DP]), segment, DP.Code());
  }

  /** Every record one TestSegment call offers has `segment` equal to its
      argument and an error kind of SHORT or OPEN, never NONE. */
  lemma RecordsCarrySegment(segment: Byte, snaps: seq<Pins>)
    requires Observed(snaps)
    ensures forall r :: r in ExpectedRecords(segment, snaps) ==>
              r.segment == segment && (r.error == SHORT || r.error == OPEN)
  {
    PhasesStamped(segment, snaps);
    SweepShape(segment, snaps, 9);
    var point := if segment == 0 then [] else PointAt(segment, snaps[SNAP_DP]);
    PhasesCarrySegment(segment, HvAt(segment, snaps[SNAP_SELECT]), BlankAt(segment, snaps[SNAP_BLANK]),
                       Sweep(segment, snaps, 9), ZeroAt(segment, snaps[SNAP_ZERO]), point);
  }

  /** The sequence reasoning behind RecordsCarrySegment. */
  lemma PhasesCarrySegment(segment: Byte, hv: seq<Record>, blank: seq<Record>, sweep: seq<Record>,
                           zero: seq<Record>, point: seq<Record>)
    requires Stamped(hv, segment, HV.Code()) && Stamped(blank, segment, BLANKED.Code())
    requires forall r :: r in sweep ==> r.segment == segment && r.error != NONE
    requires Stamped(zero, segment, ZERO.Code()) && Stamped(point, segment, DP.Code())
    ensures forall r :: r in hv + blank + sweep + zero + point ==> r.segment == segment && r.error != NONE
  {
  }

  /** The sequence reasoning behind RecordsInPhaseOrder, on the records of
      the five phases taken apart. */
  lemma PhasesInOrder(segment: Byte, hv: seq<Record>, blank: seq<Record>, sweep: seq<Record>,
                      zero: seq<Record>, point: seq<Record>)
    requires Stamped(hv, segment, HV.Code()) && Stamped(blank, segment, BLANKED.Code())
    requires InPhaseOrder(sweep) && RanksWithin(sweep, 2, 10)
    requires Stamped(zero, segment, ZERO.Code()) && Stamped(point, segment, DP.Code())
    ensures InPhaseOrder(hv + blank + sweep + zero + point)
  {
    StampedOrdered(hv, segment, HV.Code());
    StampedOrdered(blank, segment, BLANKED.Code());
    StampedOrdered(zero, segment, ZERO.Code());
    StampedOrdered(point, segment, DP.Code());
    OrderedConcat(hv, blank, 0, 1, 1);
    OrderedConcat(hv + blank, sweep, 0, 2, 10);
    OrderedConcat(hv + blank + sweep, zero, 0, 11, 11);
    OrderedConcat(hv + blank + sweep + zero, point, 0, 12, 12);
  }

  /** The records come in phase order: HV, blank, digits 1..9 ascending,
      digit zero, decimal point. */
  lemma RecordsInPhaseOrder(segment: Byte, snaps: seq<Pins>)
    requires Observed(snaps)
    ensures InPhaseOrder(ExpectedRecords(segment, snaps))
  {
    PhasesStamped(segment, snaps);
    SweepShape(segment, snaps, 9);
    var point := if segment == 0 then [] else PointAt(segment, snaps[SNAP_DP]);
    PhasesInOrder(segment, HvAt(segment, snaps[SNAP_SELECT]), BlankAt(segment, snaps[SNAP_BLANK]),
                  Sweep(segment, snaps, 9), ZeroAt(segment, snaps[SNAP_ZERO]), point);
  }

  /** One call offers at most 37 records, and at most 34 on the first
      segment, which has no decimal-point phase. */
  lemma RecordsBound(segment: Byte, snaps: seq<Pins>)
    requires Observed(snaps)
    ensures |ExpectedRecords(segment, snaps)| <= if segment == 0 then 34 else 37
  {
    var p0, p1, p11, p12 := snaps[SNAP_SELECT], snaps[SNAP_BLANK], snaps[SNAP_ZERO], snaps[SNAP_DP];
    FiredLength(HvChecks(segment, p0[SENSE_HV]));
    FiredLength(BlankChecks(segment, ReadEncoder(p1), p1[SENSE_0], p1[SENSE_DP]));
    SweepShape(segment, snaps, 9);
    FiredLength(ZeroChecks(segment, ReadEncoder(p11), p11[SENSE_0], p11[SENSE_DP]));
    FiredLength(PointChecks(segment, ReadEncoder(p12), p12[SENSE_0], p12[SENSE_DP]));
  }

  /** The sequence reasoning behind NoPointTestOnFirstSegment. */
  lemma PhasesWithoutPoint(segment: Byte, hv: seq<Record>, blank: seq<Record>, sweep: seq<Record>, zero: seq<Record>)
    requires Stamped(hv, segment, HV.Code()) && Stamped(blank, segment, BLANKED.Code())
    requires forall r :: r in sweep ==> 1 <= r.testDigit <= 9
    requires Stamped(zero, segment, ZERO.Code())
    ensures forall r :: r in hv + blank + sweep + zero + [] ==> r.testDigit != DP.Code()
  {
  }

  /** The first segment never reports a decimal-point test. */
  lemma NoPointTestOnFirstSegment(snaps: seq<Pins>)
    requires Observed(snaps)
    ensures forall r :: r in ExpectedRecords(0, snaps) ==> r.testDigit != DP.Code()
  {
    PhasesStamped(0, snaps);
    SweepShape(0, snaps, 9);
    PhasesWithoutPoint(0, HvAt(0, snaps[SNAP_SELECT]), BlankAt(0, snaps[SNAP_BLANK]),
                       Sweep(0, snaps, 9), ZeroAt(0, snaps[SNAP_ZERO]));
  }

  // ---------------------------------------------------------------------
  // Consequences of ReadEncoder as written.

  /** ReadEncoder never reads 0 or a digit 1..9, so every sweep step reports
      a SHORT to a value of 240 or more, and never an OPEN. */
  lemma AsWrittenStepAlwaysShort(segment: Byte, d: Byte, p: Pins)
    requires Sampled(p) && 1 <= d <= 9
    ensures var rs := StepAt(segment, d, p);
      |rs| >= 1 && rs[0] == Record(SHORT, segment, ReadEncoder(p), d) && rs[0].digit >= 240
      && forall r :: r in rs ==> r.error == SHORT
  {
    ReadEncoderComplement(p);
    FiredThree(StepChecks(segment, d, ReadEncoder(p), p[SENSE_0], p[SENSE_DP]));
  }

  /** As written, the sweep reports no OPEN at all. */
  lemma {:induction false} AsWrittenSweepNeverOpen(segment: Byte, snaps: seq<Pins>, n: nat)
    requires Observed(snaps) && n <= 9
    ensures forall r :: r in Sweep(segment, snaps, n) ==> r.error == SHORT
    ensures |Sweep(segment, snaps, n)| >= n
  {
    if n > 0 {
      AsWrittenSweepNeverOpen(segment, snaps, n - 1);
      AsWrittenStepAlwaysShort(segment, n, snaps[SnapDigit(n)]);
    }
  }

  /** As written, the encoder check of the blank, zero and decimal-point
      phases always fires too, so even a perfect tube yields at least 11
      records, 12 on segments with a decimal point. */
  lemma AsWrittenAlwaysReports(segment: Byte, snaps: seq<Pins>)
    requires Observed(snaps)
    ensures |ExpectedRecords(segment, snaps)| >= if segment == 0 then 11 else 12
  {
    var p1, p11, p12 := snaps[SNAP_BLANK], snaps[SNAP_ZERO], snaps[SNAP_DP];
    ReadEncoderComplement(p1);
    ReadEncoderComplement(p11);
    ReadEncoderComplement(p12);
    FiredThree(BlankChecks(segment, ReadEncoder(p1), p1[SENSE_0], p1[SENSE_DP]));
    FiredThree(ZeroChecks(segment, ReadEncoder(p11), p11[SENSE_0], p11[SENSE_DP]));
    FiredThree(PointChecks(segment, ReadEncoder(p12), p12[SENSE_0], p12[SENSE_DP]));
    AsWrittenSweepNeverOpen(segment, snaps, 9);
  }

  // ---------------------------------------------------------------------
  // The encoder reading as its header describes it.

  /** The number of the highest digit pulled low, 0 when none is: the
      complement taken of the four encoder bits, not of a byte whose high
      bits were already lost. */
  function IntendedEncoder(p: Pins): (b: Byte)
    requires Sampled(p)
    ensures b == 15 - EncoderBits(p)
    ensures b == 0 <==> p[ENC_0] == HIGH && p[ENC_1] == HIGH && p[ENC_2] == HIGH && p[ENC_3] == HIGH
  {
    var packed: bv8 :=
      ((p[ENC_3] as bv8) << 3) | ((p[ENC_2] as bv8) << 2) | ((p[ENC_1] as bv8) << 1) | (p[ENC_0] as bv8);
    ((!packed) & 0x0F) as int
  }

  /** A sweep step on a good tube, whose encoder lines show digit `d` pulled
      low: as written, its first record is a SHORT to 240 + d. */
  lemma AsWrittenGoodStepReportsShort(segment: Byte, d: Byte, p: Pins)
    requires Sampled(p) && 1 <= d <= 9 && EncoderBits(p) == 15 - d
    ensures |StepAt(segment, d, p)| >= 1 && StepAt(segment, d, p)[0] == Record(SHORT, segment, 240 + d, d)
  {
    ReadEncoderComplement(p);
    FiredThree(StepChecks(segment, d, ReadEncoder(p), p[SENSE_0], p[SENSE_DP]));
  }

  /** The same step with the intended reading: the encoder check passes. The
      one record left for digits 8 and 9 comes from the zero line, which shares
      A4 with ENC_3 and so reads low whenever the encoder's high bit does. */
  lemma IntendedGoodStep(segment: Byte, d: Byte, p: Pins)
    requires Sampled(p) && 1 <= d <= 9 && EncoderBits(p) == 15 - d && p[SENSE_DP] == HIGH
    ensures Fired(StepChecks(segment, d, IntendedEncoder(p), p[SENSE_0], p[SENSE_DP])) ==
              if d <= 7 then [] else [Record(SHORT, segment, ZERO.Code(), d)]
  {
    assert p[SENSE_0] == p[ENC_3];
    FiredThree(StepChecks(segment, d, IntendedEncoder(p), p[SENSE_0], p[SENSE_DP]));
  }

  // ---------------------------------------------------------------------
  // Allocation failures.

  /** Only offered records reach the queue. */
  lemma {:induction false} KeptMember(rs: seq<Record>, ok: nat -> bool, from: nat, r: Record)
    requires r in Kept(rs, ok, from)
    ensures r in rs
    decreases |rs|
  {
    if r != rs[0] {
      KeptMember(rs[1..], ok, from + 1, r);
    }
  }

  /** Every offered record reaches the queue exactly when every allocation succeeds. */
  lemma {:induction false} KeptAll(rs: seq<Record>, ok: nat -> bool, from: nat)
    ensures Kept(rs, ok, from) == rs <==> forall i: nat :: from <= i < from + |rs| ==> ok(i)
    decreases |rs|
  {
    if rs != [] {
      KeptAll(rs[1..], ok, from + 1);
      if !ok(from) {
        // A failed attempt drops a record.
        assert |Kept(rs, ok, from)| < |rs|;
      }
    }
  }

  /** The number of failed attempts among `from .. from + n - 1`. */
  function Failures(ok: nat -> bool, from: nat, n: nat): (f: nat)
    ensures f <= n
    decreases n
  {
    if n == 0 then 0 else (if ok(from) then 0 else 1) + Failures(ok, from + 1, n - 1)
  }

  /** Each failed allocation costs exactly one record: the queue gains the
      offered records less one per failure. */
  lemma {:induction false} KeptCount(rs: seq<Record>, ok: nat -> bool, from: nat)
    ensures |Kept(rs, ok, from)| == |rs| - Failures(ok, from, |rs|)
    decreases |rs|
  {
    if rs != [] {
      KeptCount(rs[1..], ok, from + 1);
    }
  }

  /** `a` is `b` with some elements left out, the rest in their order. */
  predicate Subsequence<T(==)>(a: seq<T>, b: seq<T>)
    decreases |b|
  {
    a == [] || (b != [] && ((a[0] == b[0] && Subsequence(a[1..], b[1..])) || Subsequence(a, b[1..])))
  }

  /** The records that reach the queue keep the order in which they were offered. */
  lemma {:induction false} KeptInOrder(rs: seq<Record>, ok: nat -> bool, from: nat)
    ensures Subsequence(Kept(rs, ok, from), rs)
    decreases |rs|
  {
    if rs != [] {
      KeptInOrder(rs[1..], ok, from + 1);
      if ok(from) {
        assert Kept(rs, ok, from)[1..] == Kept(rs[1..], ok, from + 1);
      } else {
        assert Kept(rs, ok, from) == Kept(rs[1..], ok, from + 1);
      }
    }
  }

  // ---------------------------------------------------------------------
  // Actuator calls.

  /** The contents of the display commands in `acts`, in order. */
  function Displays(acts: seq<Action>): seq<seq<Cell>>
  {
    if acts == [] then []
    else (if acts[0].DisplayDigits? then [acts[0].cells] else []) + Displays(acts[1..])
  }

  lemma {:induction false} DisplaysAppend(a: seq<Action>, b: seq<Action>)
    ensures Displays(a + b) == Displays(a) + Displays(b)
  {
    if a != [] {
      assert (a + b)[1..] == a[1..] + b;
      DisplaysAppend(a[1..], b);
    } else {
      assert a + b == b;
    }
  }

  lemma SwitchDigitDisplays(segment: Byte, digit: Byte)
    ensures Displays(SwitchDigit(segment, digit)) == [Cells(segment, digit)]
  {
    var acts := SwitchDigit(segment, digit);
    assert acts[0].cells == Cells(segment, digit);
    assert acts[1..][1..] == [];
    assert Displays(acts[1..]) == [];
  }

  /** The sweep shows digits 1..n in ascending order at position `segment`,
      each followed by the settle delay. */
  lemma {:induction false} SweepTraceShape(segment: Byte, n: nat)
    requires n <= 9
    ensures |SweepTrace(segment, n)| == 2 * n
    ensures forall k :: 1 <= k <= n ==> SweepTrace(segment, n)[2 * k - 1] == Delay(SETTLE_TIME)
    ensures Displays(SweepTrace(segment, n)) == seq(n, k => Cells(segment, k + 1))
  {
    if n > 0 {
      SweepTraceShape(segment, n - 1);
      DisplaysAppend(SweepTrace(segment, n - 1), SwitchDigit(segment, n));
      SwitchDigitDisplays(segment, n);
    }
  }

  /** What the tube is shown during one call: blank, digits 1..9 and then 0
      at position `segment`, and blank again before the decimal-point check
      on every segment except the first. */
  lemma TraceDisplays(segment: Byte)
    ensures Displays(ExpectedTrace(segment)) ==
              [BlankDisplay().cells] + seq(9, k => Cells(segment, k + 1)) + [Cells(segment, 0)]
              + (if segment == 0 then [] else [BlankDisplay().cells])
  {
    var select := ChangeSegment(segment) + [Delay(SELECT_WAIT)];
    var blank, sweep, zero := BlankDisplay(), SweepTrace(segment, 9), SwitchDigit(segment, 0);
    var tail := if segment == 0 then [] else [SetDecimalPoint(segment - 1, true), blank];
    var p1 := select + [blank];
    var p2 := p1 + sweep;
    var p3 := p2 + zero;
    assert ExpectedTrace(segment) == p3 + tail;
    assert Displays(select) == [] by {
      ChangeSegmentDisplaysNothing(ChangeSegment(segment));
      DisplaysAppend(ChangeSegment(segment), [Delay(SELECT_WAIT)]);
    }
    DisplaysAppend(select, [blank]);
    assert Displays(p1) == [blank.cells];
    SweepTraceShape(segment, 9);
    DisplaysAppend(p1, sweep);
    SwitchDigitDisplays(segment, 0);
    DisplaysAppend(p2, zero);
    DisplaysAppend(p3, tail);
    assert Displays(tail) == if segment == 0 then [] else [blank.cells] by {
      if segment != 0 {
        assert tail[1..][1..] == [];
      }
    }
  }

  lemma {:induction false} ChangeSegmentDisplaysNothing(acts: seq<Action>)
    requires forall a :: a in acts ==> a.DigitalWrite?
    ensures Displays(acts) == []
  {
    if acts != [] {
      assert acts[0] in acts;
      ChangeSegmentDisplaysNothing(acts[1..]);
    }
  }

  /** The decimal point is switched on exactly when the segment is not the
      first, and then always the point after the previous position. */
  lemma TraceDecimalPoint(segment: Byte)
    ensures (exists a :: a in ExpectedTrace(segment) && a.SetDecimalPoint?) <==> segment != 0
    ensures forall a :: a in ExpectedTrace(segment) && a.SetDecimalPoint? ==> a == SetDecimalPoint(segment - 1, true)
  {
    var cs, sw, z := ChangeSegment(segment), SweepTrace(segment, 9), SwitchDigit(segment, 0);
    var pre := cs + [Delay(SELECT_WAIT)] + [BlankDisplay()] + sw + z;
    var tail := if segment == 0 then [] else [SetDecimalPoint(segment - 1, true), BlankDisplay()];
    assert ExpectedTrace(segment) == pre + tail;
    SweepTraceNoPoint(segment, 9);
    assert forall a :: a in cs ==> !a.SetDecimalPoint?;
    assert forall a :: a in z ==> !a.SetDecimalPoint? by {
      assert z == [z[0], z[1]];
    }
    assert forall a :: a in pre ==> !a.SetDecimalPoint?;
    PointOnlyInTail(pre, tail, segment);
  }

  /** The sequence reasoning behind TraceDecimalPoint. */
  lemma PointOnlyInTail(pre: seq<Action>, tail: seq<Action>, segment: Byte)
    requires forall a :: a in pre ==> !a.SetDecimalPoint?
    requires tail == if segment == 0 then [] else [SetDecimalPoint(segment - 1, true), BlankDisplay()]
    ensures (exists a :: a in pre + tail && a.SetDecimalPoint?) <==> segment != 0
    ensures forall a :: a in pre + tail && a.SetDecimalPoint? ==> a == SetDecimalPoint(segment - 1, true)
  {
    if segment != 0 {
      assert SetDecimalPoint(segment - 1, true) in pre + tail;
    }
  }

  lemma {:induction false} SweepTraceNoPoint(segment: Byte, n: nat)
    requires n <= 9
    ensures forall a :: a in SweepTrace(segment, n) ==> !a.SetDecimalPoint?
  {
    if n > 0 {
      SweepTraceNoPoint(segment, n - 1);
      var s := SwitchDigit(segment, n);
      assert s == [s[0], s[1]];
    }
  }
}
