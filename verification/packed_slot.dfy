/**
 * forge-std's packed storage fields: finding, reading and writing bits [r, r + w) of a 256-bit slot.
 * A word is its 256 bits, least significant first.
 */
module PackedSlot {

  type Word = b: seq<bool> | |b| == 256 witness seq(256, _ => false)

  function Zero(): Word { seq(256, i => false) }
  function One(): Word { seq(256, i => i == 0) }
  function And(x: Word, y: Word): Word { seq(256, i requires 0 <= i < 256 => x[i] && y[i]) }
  function Or(x: Word, y: Word): Word { seq(256, i requires 0 <= i < 256 => x[i] || y[i]) }
  function Not(x: Word): Word { seq(256, i requires 0 <= i < 256 => !x[i]) }

  /** EVM shifts: bits that leave the word are lost. */
  function Shl(k: nat, x: Word): Word { seq(256, i requires 0 <= i < 256 => i >= k && x[i - k]) }
  function Shr(k: nat, x: Word): Word { seq(256, i requires 0 <= i < 256 => i + k < 256 && x[i + k]) }

  /** Subtracting one, with the borrow rippling up; zero wraps around to all ones. */
  function Decrement(x: seq<bool>): (r: seq<bool>)
    ensures |r| == |x|
  {
    if x == [] then [] else if x[0] then [false] + x[1..] else [true] + Decrement(x[1..])
  }

  /** The number a bit string stands for. */
  function Number(x: seq<bool>): nat {
    if x == [] then 0 else (if x[0] then 1 else 0) + 2 * Number(x[1..])
  }

  function Two(k: nat): nat {
    if k == 0 then 1 else 2 * Two(k - 1)
  }

  /** What a getter for the field at bits [r, r + w) returns. */
  function Field(x: Word, r: nat, w: nat): Word {
    seq(256, i requires 0 <= i < 256 => i < w && r + i < 256 && x[r + i])
  }

  /** `getMaskByOffsets`, operation by operation. */
  function Mask(offsetLeft: nat, offsetRight: nat): Word
    requires offsetLeft + offsetRight <= 256
  {
    Shl(offsetRight, Decrement(Shl(256 - (offsetRight + offsetLeft), One())))
  }

  /** `getUpdatedSlotValue`. */
  function Updated(current: Word, v: Word, offsetLeft: nat, offsetRight: nat): Word
    requires offsetLeft + offsetRight <= 256
  {
    Or(And(current, Not(Mask(offsetLeft, offsetRight))), Shl(offsetRight, v))
  }

  /** The value between the offsets, as `read` extracts it. */
  function Extract(slot: Word, offsetLeft: nat, offsetRight: nat): Word
    requires offsetLeft + offsetRight <= 256
  {
    Shr(offsetRight, And(slot, Mask(offsetLeft, offsetRight)))
  }

  // ---- numbers and bits ----

  /** Decrement subtracts one, modulo 2^|x|. */
  lemma {:induction false} DecrementSubtracts(x: seq<bool>)
    ensures Number(Decrement(x)) == if Number(x) == 0 then Two(|x|) - 1 else Number(x) - 1
  {
    if x != [] {
      DecrementSubtracts(x[1..]);
      assert Decrement(x)[1..] == if x[0] then x[1..] else Decrement(x[1..]);
    }
  }

  lemma {:induction false} NumberBound(x: seq<bool>)
    ensures Number(x) < Two(|x|)
  {
    if x != [] { NumberBound(x[1..]); }
  }

  lemma {:induction false} TwoGrows(j: nat, k: nat)
    requires j <= k
    ensures 0 < Two(j) <= Two(k)
    decreases k
  {
    if j < k {
      TwoGrows(j, k - 1);
    } else if j > 0 {
      TwoGrows(j - 1, k - 1);
    }
  }

  predicate Fits(x: seq<bool>, w: nat) {
    forall i | w <= i < |x| :: !x[i]
  }

  /** A number is below 2^w exactly when no bit from w on is set. */
  lemma {:induction false} FitsIff(x: seq<bool>, w: nat)
    ensures Number(x) < Two(w) <==> Fits(x, w)
    decreases |x|
  {
    if x == [] {
      TwoGrows(0, w);
    } else if w == 0 {
      FitsIff(x[1..], 0);
      assert Fits(x, 0) <==> !x[0] && Fits(x[1..], 0) by {
        assert forall i | 1 <= i < |x| :: x[i] == x[1..][i - 1];
      }
    } else {
      FitsIff(x[1..], w - 1);
      assert Fits(x, w) <==> Fits(x[1..], w - 1) by {
        assert forall i | 1 <= i < |x| :: x[i] == x[1..][i - 1];
      }
    }
  }

  /** Below the lowest set bit everything turns on, that bit turns off, the rest stays. */
  lemma {:induction false} DecrementBits(x: seq<bool>, n: nat)
    requires n <= |x| && (forall i | 0 <= i < n :: !x[i]) && (n < |x| ==> x[n])
    ensures forall i | 0 <= i < |x| :: Decrement(x)[i] == if i < n then true else if i == n then false else x[i]
  {
    if n > 0 {
      DecrementBits(x[1..], n - 1);
    }
  }

  /** The mask covers exactly the bits between the offsets, the whole word included. */
  lemma MaskBits(l: nat, r: nat, i: nat)
    requires l + r <= 256 && i < 256
    ensures Mask(l, r)[i] <==> r <= i < 256 - l
  {
    DecrementBits(Shl(256 - (r + l), One()), 256 - (r + l));
  }

  // ---- reading and writing ----

  /** Reading extracts the field. */
  lemma ExtractIsField(x: Word, l: nat, r: nat, w: nat)
    requires l + r + w == 256
    ensures Extract(x, l, r) == Field(x, r, w)
  {
    forall i | 0 <= i < 256 ensures Extract(x, l, r)[i] == Field(x, r, w)[i] {
      if i + r < 256 { MaskBits(l, r, i + r); }
    }
  }

  /** Writing a value that fits and reading back gives it; every bit outside the field keeps its value. */
  lemma WriteThenRead(x: Word, v: Word, l: nat, r: nat, w: nat)
    requires l + r + w == 256 && Number(v) < Two(w)
    ensures var y := Updated(x, v, l, r);
            && Extract(y, l, r) == v && Field(y, r, w) == v
            && forall i | 0 <= i < 256 && !(r <= i < r + w) :: y[i] == x[i]
  {
    var y := Updated(x, v, l, r);
    FitsIff(v, w);
    forall i | 0 <= i < 256 ensures y[i] == if r <= i < r + w then v[i - r] else x[i] {
      MaskBits(l, r, i);
    }
    assert Field(y, r, w) == v;
    ExtractIsField(y, l, r, w);
  }

  // ---- searching for the field ----

  /** A lone bit shows through the getter exactly when it lies in the field. */
  lemma LoneBit(k: nat, r: nat, w: nat)
    requires k < 256 && r + w <= 256
    ensures Field(Shl(k, One()), r, w) != Zero() <==> r <= k < r + w
  {
    var f := Field(Shl(k, One()), r, w);
    if r <= k < r + w {
      assert f[k - r];
    } else {
      assert forall i | 0 <= i < 256 :: !f[i];
    }
  }

  /** A contract with one packed field behind a getter; `vm.store` may put any word into the slot. */
  class Target {
    var slot: Word
    const r: nat
    const w: nat

    constructor (slot: Word, r: nat, w: nat)
      requires w >= 1 && r + w <= 256
      ensures Valid() && this.slot == slot && this.r == r && this.w == w
    {
      this.slot, this.r, this.w := slot, r, w;
    }

    predicate Valid() { w >= 1 && r + w <= 256 }

    function Call(): Word
      reads this
    {
      Field(slot, r, w)
    }

    /** `findOffset`: sets one bit after the other until the getter sees it. */
    method FindOffset(left: bool) returns (found: bool, offset: nat)
      requires Valid()
      modifies this`slot
      ensures found && offset == if left then 256 - r - w else r
    {
      ghost var goal := if left then 256 - r - w else r;
      found, offset := false, 0;
      while offset < 256
        invariant offset <= goal
      {
        var bit := if left then 255 - offset else offset;
        slot := Shl(bit, One());
        LoneBit(bit, r, w);
        if Call() != Zero() { return true, offset; }
        offset := offset + 1;
      }
      assert false;  // the field has at least one bit
    }

    /** `findOffsets`: exactly the gaps on both sides of the field, with the slot as it was. */
    method FindOffsets() returns (found: bool, offsetLeft: nat, offsetRight: nat)
      requires Valid()
      modifies this`slot
      ensures slot == old(slot)
      ensures found && offsetLeft == 256 - r - w && offsetRight == r
    {
      var previous := slot;
      var foundLeft, foundRight;
      foundLeft, offsetLeft := FindOffset(true);
      foundRight, offsetRight := FindOffset(false);
      slot := previous;
      found := foundLeft && foundRight;
    }

    /** `checked_write` with the offsets of an earlier search; a failed write is undone. */
    method CheckedWrite(v: Word, offsetLeft: nat, offsetRight: nat) returns (ok: bool)
      requires Valid() && offsetLeft + offsetRight < 256
      modifies this`slot
      ensures ok ==> Call() == v && slot == Updated(old(slot), v, offsetLeft, offsetRight)
      ensures !ok ==> slot == old(slot)
      ensures offsetLeft == 256 - r - w && offsetRight == r ==> (ok <==> Number(v) < Two(w))
      ensures offsetLeft == 256 - r - w && offsetRight == r && ok ==>
                forall i | 0 <= i < 256 && !(r <= i < r + w) :: slot[i] == old(slot)[i]
    {
      if offsetLeft + offsetRight > 0 {
        var maxVal := Two(256 - (offsetLeft + offsetRight));
        if Number(v) >= maxVal { return false; }
      }
      var current := slot;
      slot := Updated(current, v, offsetLeft, offsetRight);
      NumberBound(v);
      if offsetLeft == 256 - r - w && offsetRight == r { WriteThenRead(current, v, offsetLeft, offsetRight, w); }
      if Call() != v {
        slot := current;
        return false;
      }
      return true;
    }
  }
}
