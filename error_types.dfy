/** The types of the fault queue: the error kinds, the digit tags and the
    fault record (`Err_et`, `Digit_et` and `Error_t` in ErrorHandling.h). */
module ErrorTypes {

  /** A C `uint8_t`. */
  type Byte = x: int | 0 <= x < 256

  datatype Option<T> = None | Some(value: T)

  /** `Err_et`: the kind of a fault. NONE is never enqueued. */
  datatype ErrKind = NONE | SHORT | OPEN {
    /** The enumerator's value (C numbers them from 0). */
    function Code(): (c: int)
      ensures 0 <= c <= 2
    {
      match this
      case NONE => 0
      case SHORT => 1
      case OPEN => 2
    }
  }

  /** `Digit_et`: the numeric digits, plus the tags BLANKED, ZERO, DP and HV. */
  datatype Digit = BLANKED | ONE | TWO | THREE | FOUR | FIVE | SIX | SEVEN | EIGHT | NINE
                 | ZERO | DP | HV
  {
    /** The enumerator's byte value. */
    function Code(): (c: Byte)
      ensures c <= 12
    {
      match this
      case BLANKED => 0
      case ONE => 1
      case TWO => 2
      case THREE => 3
      case FOUR => 4
      case FIVE => 5
      case SIX => 6
      case SEVEN => 7
      case EIGHT => 8
      case NINE => 9
      case ZERO => 10
      case DP => 11
      case HV => 12
    }

    /** The value 0..9 this digit shows on a tube, if it is one of the ten numerals. */
    function Numeral(): Option<int>
    {
      match this
      case ZERO => Some(0)
      case BLANKED => None
      case DP => None
      case HV => None
      case _ => Some(Code())
    }
  }

  /** The cast `(Digit_et)c`: the enumerator whose value is `c`, if any. */
  function FromCode(c: Byte): (d: Option<Digit>)
    ensures d.Some? <==> c <= 12
    ensures d.Some? ==> d.value.Code() == c
  {
    match c
    case 0 => Some(BLANKED)
    case 1 => Some(ONE)
    case 2 => Some(TWO)
    case 3 => Some(THREE)
    case 4 => Some(FOUR)
    case 5 => Some(FIVE)
    case 6 => Some(SIX)
    case 7 => Some(SEVEN)
    case 8 => Some(EIGHT)
    case 9 => Some(NINE)
    case 10 => Some(ZERO)
    case 11 => Some(DP)
    case 12 => Some(HV)
    case _ => None
  }

  /** The data part of an `Error_t`. `digit` and `testDigit` are raw bytes:
      TestSegment stores whatever byte ReadEncoder returns in `digit`. */
  datatype Record = Record(error: ErrKind, segment: Byte, digit: Byte, testDigit: Byte)

  /** An `Error_t` in memory: the record's fields and the `next` link. */
  class Node {
    var error: ErrKind
    var segment: Byte
    var digit: Byte
    var testDigit: Byte
    var next: Node?

    /** The record this node holds (every field except `next`). */
    function Value(): Record
      reads this`error, this`segment, this`digit, this`testDigit
    {
      Record(error, segment, digit, testDigit)
    }

    constructor (error: ErrKind, segment: Byte, digit: Byte, testDigit: Byte, next: Node?)
      ensures Value() == Record(error, segment, digit, testDigit) && this.next == next
    {
      this.error := error;
      this.segment := segment;
      this.digit := digit;
      this.testDigit := testDigit;
      this.next := next;
    }

    /** `malloc` followed by `memcpy`: a fresh node with every field of `src`, `next` included. */
    constructor Copy(src: Node)
      ensures Value() == src.Value() && next == src.next
    {
      error := src.error;
      segment := src.segment;
      digit := src.digit;
      testDigit := src.testDigit;
      next := src.next;
    }
  }

  lemma ErrKindsDistinct()
    ensures NONE.Code() != SHORT.Code() && SHORT.Code() != OPEN.Code() && NONE.Code() != OPEN.Code()
  {
  }

  /** Distinct enumerators have distinct values, so the cast back recovers the enumerator. */
  lemma CodeRoundTrip(d: Digit)
    ensures FromCode(d.Code()) == Some(d)
  {
  }

  /** For index 1..9 the cast `(Digit_et)index` names the numeral that shows `index`. */
  lemma IndexNamesNumeral(index: Byte)
    requires 1 <= index <= 9
    ensures FromCode(index).Some? && FromCode(index).value.Numeral() == Some(index)
  {
  }

  /** BLANKED shares value 0 with the encoder's "nothing on" reading; ZERO, DP and HV
      lie outside 0..9. */
  lemma PseudoDigitsApart(d: Digit)
    ensures d.Code() == 0 <==> d == BLANKED
    ensures d.Code() > 9 <==> d in {ZERO, DP, HV}
  {
  }

  /** `testDigit % 10` gives the numeral shown for every numeral digit, ZERO included. */
  lemma NumeralIsCodeMod10(d: Digit)
    requires d.Numeral().Some?
    ensures d.Numeral() == Some(d.Code() % 10)
  {
  }
}
