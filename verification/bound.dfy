/** forge-std's `_bound`: folding a word into a range. */
module Bound {
  import opened Common

  type Word = n: nat | n < TWO_256
  const TWO_255: nat := 0x8000_0000_0000_0000_0000_0000_0000_0000_0000_0000_0000_0000_0000_0000_0000_0000
  type SignedWord = n: int | -0x8000_0000_0000_0000_0000_0000_0000_0000_0000_0000_0000_0000_0000_0000_0000_0000 <= n
                             < 0x8000_0000_0000_0000_0000_0000_0000_0000_0000_0000_0000_0000_0000_0000_0000_0000

  /** The values next to the ends of the word are sent to the ends of the range when the range is wide enough. */
  predicate NearZero(x: Word, min: Word, max: Word) {
    min <= max && !(min <= x <= max) && x <= 3 && max - min + 1 > x
  }

  predicate NearTop(x: Word, min: Word, max: Word) {
    min <= max && !(min <= x <= max) && x >= UINT256_MAX - 3 && max - min + 1 > UINT256_MAX - x
  }

  /** The unsigned form; every intermediate value fits a word, so no checked operation can revert. */
  function BoundUnsigned(x: Word, min: Word, max: Word): (r: Option<Word>)
    ensures r.Some? <==> min <= max
    ensures r.Some? ==> min <= r.value <= max
    ensures min <= x <= max ==> r == Some(x)
  {
    if min > max then None
    else if min <= x <= max then Some(x)
    else
      var size: Word := max - min + 1;
      if x <= 3 && size > x then Some(min + x)
      else if x >= UINT256_MAX - 3 && size > UINT256_MAX - x then Some(max - (UINT256_MAX - x))
      else if x > max then
        var diff: Word := x - max;
        var rem: Word := diff % size;
        if rem == 0 then Some(max)
        else
          var top: Word := min + rem;
          Some(top - 1)
      else
        var diff: Word := min - x;
        var rem: Word := diff % size;
        if rem == 0 then Some(min)
        else
          var bottom: Word := max - rem;
          Some(bottom + 1)
  }

  lemma Apart(q1: int, q2: int, size: nat)
    requires q1 < q2
    ensures q1 * size + size <= q2 * size
  {
    assert q2 == q1 + 1 + (q2 - q1 - 1);
    assert q2 * size == q1 * size + size + (q2 - q1 - 1) * size;
  }

  /** Quotient and remainder are determined by the dividend. */
  lemma Unique(q1: int, r1: int, q2: int, r2: int, size: nat)
    requires 0 <= r1 < size && 0 <= r2 < size && q1 * size + r1 == q2 * size + r2
    ensures r1 == r2
  {
    if q1 < q2 {
      Apart(q1, q2, size);
    } else if q2 < q1 {
      Apart(q2, q1, size);
    }
  }

  lemma MultipleMod(a: int, k: int, size: nat)
    requires size > 0 && a == k * size
    ensures a % size == 0
  {
    Unique(a / size, a % size, k, 0, size);
  }

  /** diff rounded up to a multiple of size. */
  function RoundUp(diff: nat, size: nat): int
    requires size > 0
  {
    if diff % size == 0 then diff else diff + size - diff % size
  }

  lemma RoundUpIsMultiple(diff: nat, size: nat)
    requires size > 0
    ensures RoundUp(diff, size) % size == 0 && (0 - RoundUp(diff, size)) % size == 0
  {
    var q, rem := diff / size, diff % size;
    assert diff == q * size + rem;
    assert (q + 1) * size == q * size + size;
    var k := if rem == 0 then q else q + 1;
    assert -k * size == -(k * size);
    MultipleMod(k * size, k, size);
    MultipleMod(-(k * size), -k, size);
  }

  /** How far x is moved. */
  lemma BoundMoves(x: Word, min: Word, max: Word)
    requires min <= max && !NearZero(x, min, max) && !NearTop(x, min, max)
    ensures x - BoundUnsigned(x, min, max).value ==
            if x > max then RoundUp(x - max, max - min + 1)
            else if x < min then 0 - RoundUp(min - x, max - min + 1)
            else 0
  {
  }

  lemma MovedByMultiples(moved: int, x: Word, min: Word, max: Word)
    requires min <= max
    requires moved == if x > max then RoundUp(x - max, max - min + 1)
                      else if x < min then 0 - RoundUp(min - x, max - min + 1) else 0
    ensures moved % (max - min + 1) == 0
  {
    if x > max {
      RoundUpIsMultiple(x - max, max - min + 1);
    } else if x < min {
      RoundUpIsMultiple(min - x, max - min + 1);
    }
  }

  /** Away from the two special cases the result is x, moved by whole range sizes. */
  lemma BoundIsCongruent(x: Word, min: Word, max: Word)
    requires min <= max && !NearZero(x, min, max) && !NearTop(x, min, max)
    ensures (x - BoundUnsigned(x, min, max).value) % (max - min + 1) == 0
  {
    BoundMoves(x, min, max);
    MovedByMultiples(x - BoundUnsigned(x, min, max).value, x, min, max);
  }

  /** And it is the only value of the range congruent to x. */
  lemma CongruentIsUnique(x: Word, min: Word, max: Word, r: Word, s: Word)
    requires min <= r <= max && min <= s <= max
    requires (x - r) % (max - min + 1) == 0 && (x - s) % (max - min + 1) == 0
    ensures r == s
  {
    var size := max - min + 1;
    var q, p := (x - r) / size, (x - s) / size;
    assert x - r == q * size && x - s == p * size;
    Unique(q, r - min, p, s - min, size);
  }

  /** What the special cases are for: the first and last words always reach the ends of the range. */
  lemma EndsAreCovered(min: Word, max: Word, j: nat)
    requires min <= max && j <= 3 && min + j <= max
    ensures BoundUnsigned(0, min, max) == Some(min) && BoundUnsigned(UINT256_MAX, min, max) == Some(max)
    ensures j < min ==> BoundUnsigned(j, min, max) == Some(min + j)
    ensures max < UINT256_MAX - j ==> BoundUnsigned(UINT256_MAX - j, min, max) == Some(max - j)
  {
  }

  // ---- the signed form ----

  /** `uint256(x)` of a signed word and the bitwise complement. */
  function ToWord(x: SignedWord): Word { if x < 0 then TWO_256 + x else x }
  function FromWord(u: Word): SignedWord { if u < TWO_255 then u else u - TWO_256 }
  function Complement(u: Word): Word { UINT256_MAX - u }

  /** Each subtraction and addition is a checked word operation of the source. */
  function Shift(x: SignedWord): Word {
    if x < 0 then
      var d: Word := TWO_255 - Complement(ToWord(x));
      d - 1
    else ToWord(x) + TWO_255
  }

  function Unshift(y: Word): SignedWord {
    if y < TWO_255 then
      var c: Word := Complement(TWO_255 - y);
      FromWord(c + 1)
    else FromWord(y - TWO_255)
  }

  function BoundSigned(x: SignedWord, min: SignedWord, max: SignedWord): Option<SignedWord> {
    if min > max then None
    else match BoundUnsigned(Shift(x), Shift(min), Shift(max))
      case None => None
      case Some(y) => Some(Unshift(y))
  }

  /** The shift adds 2^255, so it preserves order, and the way back undoes it. */
  lemma ShiftIsOrderPreserving(x: SignedWord, y: SignedWord)
    ensures Shift(x) == x + TWO_255 && Unshift(Shift(x)) == x
    ensures x <= y <==> Shift(x) <= Shift(y)
  {
  }

  lemma UnshiftThenShift(y: Word)
    ensures Shift(Unshift(y)) == y
  {
  }

  /** The signed form is the unsigned one conjugated by the shift: it lands in range and fixes what is there. */
  lemma SignedIsConjugate(x: SignedWord, min: SignedWord, max: SignedWord)
    ensures BoundSigned(x, min, max).Some? <==> min <= max
    ensures min <= max ==>
      var r := BoundSigned(x, min, max).value;
      && BoundUnsigned(Shift(x), Shift(min), Shift(max)) == Some(Shift(r))
      && min <= r <= max && (min <= x <= max ==> r == x)
  {
    ShiftIsOrderPreserving(min, max);
    ShiftIsOrderPreserving(min, x);
    ShiftIsOrderPreserving(x, max);
    if min <= max {
      var y := BoundUnsigned(Shift(x), Shift(min), Shift(max)).value;
      UnshiftThenShift(y);
      ShiftIsOrderPreserving(min, Unshift(y));
      ShiftIsOrderPreserving(Unshift(y), max);
    }
  }
}
