/** The bounded retry loop around `ExecuteMint` and its exponential backoff in 64-bit nanoseconds. */
module Retry {
  import opened Words

  const TWO_63: int := 0x8000_0000_0000_0000
  const TWO_64: int := 0x1_0000_0000_0000_0000

  /** The int64 value a product wraps around to. */
  function Wrap(x: int): (r: int)
    ensures -TWO_63 <= r < TWO_63
  {
    (x + TWO_63) % TWO_64 - TWO_63
  }

  /** `RetryConfig`; durations are int64 nanoseconds. */
  datatype Config = Config(maxAttempts: int, initialBackoff: int, maxBackoff: int, multiplier: int) {
    predicate Valid() {
      initialBackoff < TWO_63 && maxBackoff < TWO_63
    }
    function Attempts(): nat { if maxAttempts <= 0 then 1 else maxAttempts }
    function Initial(): nat { if initialBackoff <= 0 then 500_000_000 else initialBackoff }
    function Factor(): nat { if multiplier > 1 then multiplier else 1 }
    function Capped(x: int): int { if maxBackoff > 0 && x > maxBackoff then maxBackoff else x }
  }

  // ---- which errors are worth another attempt ----

  predicate OccursAt(s: string, part: string, i: nat) {
    i + |part| <= |s| && s[i..i + |part|] == part
  }

  predicate Contains(s: string, part: string) {
    exists i | 0 <= i <= |s| :: OccursAt(s, part, i)
  }

  /**
   * `strings.ToLower`, as far as the search for "invalid" can see: besides A to Z only the dotted capital I becomes
   * one of its letters.
   */
  function LowerChar(c: char): char {
    if 'A' <= c <= 'Z' then c - 'A' + 'a' else if c == '\U{0130}' then 'i' else c
  }

  function Lower(s: string): string {
    seq(|s|, i requires 0 <= i < |s| => LowerChar(s[i]))
  }

  predicate Retryable(message: string) {
    !Contains(message, "UserNotCompliant") && !Contains(Lower(message), "invalid")
  }

  /** A letter of "invalid", in either case. */
  predicate EitherCase(c: char, low: char, up: char) { c == low || c == up || (low == 'i' && c == '\U{0130}') }

  predicate SaysInvalid(x: string) {
    && |x| == 7
    && EitherCase(x[0], 'i', 'I') && EitherCase(x[1], 'n', 'N') && EitherCase(x[2], 'v', 'V') && EitherCase(x[3], 'a', 'A')
    && EitherCase(x[4], 'l', 'L') && EitherCase(x[5], 'i', 'I') && EitherCase(x[6], 'd', 'D')
  }

  /** The message is pre + x + post. */
  ghost predicate Around(message: string, pre: string, x: string, post: string) { message == pre + x + post }

  /** Failures that another attempt cannot cure name the user as not compliant or something as invalid. */
  ghost predicate FinalMessage(message: string) {
    || (exists pre: string, post: string :: Around(message, pre, "UserNotCompliant", post))
    || (exists pre: string, x: string, post: string :: SaysInvalid(x) && Around(message, pre, x, post))
  }

  lemma ContainsIff(s: string, part: string)
    ensures Contains(s, part) <==> exists pre: string, post: string :: Around(s, pre, part, post)
  {
    if Contains(s, part) {
      var i :| 0 <= i <= |s| && OccursAt(s, part, i);
      assert s == s[..i] + s[i..i + |part|] + s[i + |part|..];
      assert Around(s, s[..i], part, s[i + |part|..]);
    }
    if pre: string, post: string :| Around(s, pre, part, post) {
      assert s[|pre|..|pre| + |part|] == part;
      assert OccursAt(s, part, |pre|);
    }
  }

  lemma LowerSays(x: string)
    requires |x| == 7
    ensures Lower(x) == "invalid" <==> SaysInvalid(x)
  {
    var y := "invalid";
    assert y[0] == 'i' && y[1] == 'n' && y[2] == 'v' && y[3] == 'a' && y[4] == 'l' && y[5] == 'i' && y[6] == 'd';
    if Lower(x) == y {
      assert forall k | 0 <= k < 7 :: LowerChar(x[k]) == Lower(x)[k] == y[k];
    }
    if SaysInvalid(x) {
      assert forall k | 0 <= k < 7 :: Lower(x)[k] == y[k];
    }
  }

  lemma InvalidIff(message: string)
    ensures Contains(Lower(message), "invalid") <==> exists pre: string, x: string, post: string :: SaysInvalid(x) && Around(message, pre, x, post)
  {
    var low := Lower(message);
    if Contains(low, "invalid") {
      var i :| 0 <= i <= |low| && OccursAt(low, "invalid", i);
      var x := message[i..i + 7];
      assert Lower(x) == low[i..i + 7];
      LowerSays(x);
      assert message == message[..i] + x + message[i + 7..];
      assert Around(message, message[..i], x, message[i + 7..]);
    }
    if pre: string, x: string, post: string :| SaysInvalid(x) && Around(message, pre, x, post) {
      LowerSays(x);
      assert low[|pre|..|pre| + 7] == Lower(x);
      assert OccursAt(low, "invalid", |pre|);
    }
  }

  /** Exactly the final messages are not retried. */
  lemma RetryableIff(message: string)
    ensures Retryable(message) <==> !FinalMessage(message)
  {
    ContainsIff(message, "UserNotCompliant");
    InvalidIff(message);
  }

  // ---- the loop ----

  datatype Reply = Sent(txHash: string) | Failed(message: string)

  datatype End = Processed(txHash: string) | GaveUp(message: string) | Cancelled | Exhausted

  /** The k-th sleep, k from 1: the product of k - 1 wrapping multiplications, capped. */
  function Sleep(c: Config, k: nat): int
    requires k > 0
  {
    c.Capped(Wrap(c.Initial() * Pow(c.Factor(), k - 1)))
  }

  /** The design's formula, over unbounded integers. */
  function IdealSleep(c: Config, k: nat): int
    requires k > 0
  {
    c.Capped(c.Initial() * Pow(c.Factor(), k - 1))
  }

  /** `reply` is the environment's answer to the k-th call, `cancelled` whether the k-th sleep is cut short. */
  method ExecuteMintWithRetry(c: Config, reply: nat -> Reply, cancelled: nat -> bool)
    returns (end: End, calls: nat, sleeps: seq<int>)
    requires c.Valid()
    ensures 1 <= calls <= c.Attempts()
    ensures !end.Exhausted?
    // every call but the last failed in a way worth retrying and was followed by an uninterrupted sleep
    ensures forall k | 1 <= k < calls :: reply(k).Failed? && Retryable(reply(k).message) && !cancelled(k)
    ensures |sleeps| == if end.Cancelled? then calls else calls - 1
    ensures forall k | 1 <= k <= |sleeps| :: sleeps[k - 1] == Sleep(c, k)
    // how the last call ended the loop
    ensures match reply(calls)
            case Sent(h) => end == Processed(h)
            case Failed(m) => if Retryable(m) && calls < c.Attempts() then end.Cancelled? && cancelled(calls) else end == GaveUp(m)
    // a final failure ends the loop at once; other failures use up all max(1, MaxAttempts) attempts
    ensures reply(1).Failed? && FinalMessage(reply(1).message) ==> calls == 1 && end == GaveUp(reply(1).message)
    ensures (forall k: nat | k > 0 :: reply(k).Failed? && !FinalMessage(reply(k).message) && !cancelled(k)) ==>
              calls == (if c.maxAttempts > 1 then c.maxAttempts else 1) && end.GaveUp?
  {
    var attempts := if c.maxAttempts <= 0 then 1 else c.maxAttempts;
    var backoff := if c.initialBackoff <= 0 then 500_000_000 else c.initialBackoff;
    var i := 1;
    end, calls, sleeps := Exhausted, 0, [];
    assert Pow(c.Factor(), 0) == 1;
    if reply(1).Failed? { RetryableIff(reply(1).message); }
    while i <= attempts
      invariant 1 <= i <= attempts
      invariant |sleeps| == i - 1
      invariant backoff == Wrap(c.Initial() * Pow(c.Factor(), i - 1))
      invariant forall k | 1 <= k < i :: reply(k).Failed? && Retryable(reply(k).message) && !cancelled(k)
      invariant forall k | 1 <= k <= |sleeps| :: sleeps[k - 1] == Sleep(c, k)
      decreases attempts - i
    {
      var resp := reply(i);
      if resp.Sent? { return Processed(resp.txHash), i, sleeps; }
      RetryableIff(resp.message);
      if !Retryable(resp.message) || i == attempts { return GaveUp(resp.message), i, sleeps; }
      var sleep := backoff;
      if c.maxBackoff > 0 && sleep > c.maxBackoff { sleep := c.maxBackoff; }
      sleeps := sleeps + [sleep];
      if cancelled(i) { return Cancelled, i, sleeps; }
      WrapPower(c.Initial(), c.Factor(), i - 1);
      if c.multiplier > 1 { backoff := Wrap(backoff * c.multiplier); }
      i := i + 1;
    }
    assert false;  // the return after the loop is never reached
  }

  // ---- the backoff arithmetic ----

  lemma WrapShift(x: int, j: int)
    ensures Wrap(x - j * TWO_64) == Wrap(x)
  {
  }

  lemma WrapFits(x: int)
    ensures Wrap(x) == x <==> -TWO_63 <= x < TWO_63
  {
  }

  /** Multiplying and wrapping step by step equals wrapping once at the end. */
  lemma WrapMul(x: int, m: int)
    ensures Wrap(Wrap(x) * m) == Wrap(x * m)
  {
    var j := (x + TWO_63) / TWO_64;
    assert Wrap(x) == x - j * TWO_64;
    assert Wrap(x) * m == x * m - (j * m) * TWO_64 by {
      assert (x - j * TWO_64) * m == x * m - (j * TWO_64) * m;
      assert (j * TWO_64) * m == (j * m) * TWO_64;
    }
    WrapShift(x * m, j * m);
  }

  lemma WrapPower(initial: nat, m: nat, k: nat)
    ensures Wrap(Wrap(initial * Pow(m, k)) * m) == Wrap(initial * Pow(m, k + 1))
    ensures m == 1 ==> Wrap(initial * Pow(m, k)) == Wrap(initial * Pow(m, k + 1))
  {
    WrapMul(initial * Pow(m, k), m);
    assert initial * Pow(m, k) * m == initial * Pow(m, k + 1) by {
      assert Pow(m, k + 1) == m * Pow(m, k);
      Rearrange(initial, Pow(m, k), m);
    }
  }

  lemma Rearrange(x: nat, y: nat, z: nat)
    ensures (x * y) * z == x * (z * y)
  {
  }

  lemma {:induction false} PowMonotone(m: nat, j: nat, k: nat)
    requires m >= 1 && j <= k
    ensures 1 <= Pow(m, j) <= Pow(m, k)
    decreases k
  {
    if j < k {
      PowMonotone(m, j, k - 1);
      assert Pow(m, k) == m * Pow(m, k - 1) >= Pow(m, k - 1);
    } else if j > 0 {
      PowMonotone(m, j - 1, k - 1);
      assert Pow(m, k) == m * Pow(m, k - 1) >= 1;
    }
  }

  function Min(x: int, y: int): int { if x <= y then x else y }

  /** min(initial * m^(k-1), MaxBackoff), with 500 ms for a missing initial value, m at least 1 and a cap only if positive. */
  function Formula(c: Config, k: nat): int
    requires k > 0
  {
    var initial := if c.initialBackoff > 0 then c.initialBackoff else 500_000_000;
    var product := initial * Pow(if c.multiplier < 1 then 1 else c.multiplier, k - 1);
    if c.maxBackoff > 0 then Min(product, c.maxBackoff) else product
  }

  /**
   * If the largest product the loop can reach fits an int64, the sleeps are the design's formula and
   * never shrink.
   */
  lemma BackoffIsIdeal(c: Config, k: nat)
    requires c.Valid() && 1 <= k && k + 1 <= c.Attempts()
    requires c.Initial() * Pow(c.Factor(), c.Attempts() - 2) < TWO_63
    ensures Sleep(c, k) == IdealSleep(c, k) == Formula(c, k)
    ensures k + 2 <= c.Attempts() ==> Sleep(c, k) <= Sleep(c, k + 1)
    ensures Sleep(c, k) > 0
  {
    ProductFits(c, k - 1);
    if k + 2 <= c.Attempts() {
      ProductFits(c, k);
      PowMonotone(c.Factor(), k - 1, k);
      MulMonotone(c.Initial(), Pow(c.Factor(), k - 1), Pow(c.Factor(), k));
    }
  }

  lemma MulMonotone(x: nat, y: nat, z: nat)
    requires y <= z
    ensures x * y <= x * z
  {
  }

  lemma ProductFits(c: Config, e: nat)
    requires c.Valid() && e + 2 <= c.Attempts()
    requires c.Initial() * Pow(c.Factor(), c.Attempts() - 2) < TWO_63
    ensures 0 < c.Initial() * Pow(c.Factor(), e) < TWO_63
    ensures Wrap(c.Initial() * Pow(c.Factor(), e)) == c.Initial() * Pow(c.Factor(), e)
  {
    PowMonotone(c.Factor(), e, c.Attempts() - 2);
    MulMonotone(c.Initial(), Pow(c.Factor(), e), Pow(c.Factor(), c.Attempts() - 2));
    MulMonotone(c.Initial(), 1, Pow(c.Factor(), e));
    WrapFits(c.Initial() * Pow(c.Factor(), e));
  }

  /** Exactly when one sleep follows the formula: its product fits, or it wraps to at least the cap. */
  lemma SleepIsIdealIff(c: Config, k: nat)
    requires c.Valid() && k > 0
    ensures var product := c.Initial() * Pow(c.Factor(), k - 1);
            Sleep(c, k) == IdealSleep(c, k) <==>
              product < TWO_63 || (c.maxBackoff > 0 && Wrap(product) >= c.maxBackoff)
  {
    WrapFits(c.Initial() * Pow(c.Factor(), k - 1));
  }

  /** The seed's 751 ms, doubling and capped at 30 s: with 36 attempts instead of 6 the 35th sleep is negative. */
  lemma BackoffOverflows()
    ensures var c := Config(36, 751_000_000, 30_000_000_000, 2);
            c.Valid() && Sleep(c, 34) == IdealSleep(c, 34) == IdealSleep(c, 35) == 30_000_000_000 && Sleep(c, 35) < 0
  {
    assert Pow(2, 11) == 0x800;
    PowTwice(2, 11, 11);
    assert Pow(2, 22) == 0x40_0000;
    PowTwice(2, 22, 11);
    assert Pow(2, 33) == 0x2_0000_0000;
    assert Pow(2, 34) == 0x4_0000_0000;
  }

  lemma {:induction false} PowTwice(m: nat, j: nat, k: nat)
    ensures Pow(m, j + k) == Pow(m, j) * Pow(m, k)
  {
    if j > 0 {
      PowTwice(m, j - 1, k);
      assert m * (Pow(m, j - 1) * Pow(m, k)) == (m * Pow(m, j - 1)) * Pow(m, k);
    }
  }
}
