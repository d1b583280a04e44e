/** The id the API predicts and the id the contract computes. */
module IntentIds {
  import opened Common
  import opened Words
  import opened Escrow
  import Intents

  function Zeros(n: nat): (s: seq<Byte>)
    ensures |s| == n
  {
    if n == 0 then [] else Zeros(n - 1) + [0]
  }

  // ---- strings to bytes32 ----

  function First32(value: seq<Byte>): seq<Byte> {
    if |value| <= 32 then value else value[..32]
  }

  /** `toBytes32`: copies at most 32 bytes into a zeroed array. */
  function ToBytes32(value: seq<Byte>): (r: seq<Byte>)
    ensures |r| == 32
  {
    First32(value) + Zeros(32 - |First32(value)|)
  }

  lemma {:induction false} ZerosAreZero(n: nat, k: nat)
    requires k < n
    ensures Zeros(n)[k] == 0
  {
    if k < n - 1 { ZerosAreZero(n - 1, k); }
  }

  /** Byte by byte: the string as far as it goes, at most 32 bytes of it, and zeros after it. */
  lemma Bytes32At(value: seq<Byte>, k: nat)
    requires k < 32
    ensures ToBytes32(value)[k] == if k < |value| then value[k] else 0
  {
    if k >= |value| { ZerosAreZero(32 - |value|, k - |value|); }
  }

  function Strip(s: seq<Byte>): seq<Byte> {
    if s != [] && s[|s| - 1] == 0 then Strip(s[..|s| - 1]) else s
  }

  lemma StripZero(s: seq<Byte>)
    ensures Strip(s + [0]) == Strip(s)
  {
    assert (s + [0])[..|s|] == s;
  }

  lemma {:induction false} StripPadded(s: seq<Byte>, n: nat)
    ensures Strip(s + Zeros(n)) == Strip(s)
  {
    if n == 0 {
      assert s + [] == s;
    } else {
      assert s + Zeros(n) == (s + Zeros(n - 1)) + [0];
      StripZero(s + Zeros(n - 1));
      StripPadded(s, n - 1);
    }
  }

  lemma {:induction false} StripAndPad(s: seq<Byte>)
    ensures |Strip(s)| <= |s| && s == Strip(s) + Zeros(|s| - |Strip(s)|)
  {
    if s != [] && s[|s| - 1] == 0 {
      StripAndPad(s[..|s| - 1]);
      var z := |s| - |Strip(s)|;
      assert s == s[..|s| - 1] + [0];
      assert Zeros(z) == Zeros(z - 1) + [0];
    } else {
      assert s == Strip(s) + Zeros(0);
    }
  }

  /** Two strings become the same word exactly when their first 32 bytes agree up to trailing zeros. */
  lemma SameBytes32Iff(a: seq<Byte>, b: seq<Byte>)
    ensures ToBytes32(a) == ToBytes32(b) <==> Strip(First32(a)) == Strip(First32(b))
  {
    StripPadded(First32(a), 32 - |First32(a)|);
    StripPadded(First32(b), 32 - |First32(b)|);
    StripAndPad(ToBytes32(a));
    StripAndPad(ToBytes32(b));
  }

  // ---- amounts ----

  /** `big.Int.Bytes`: the magnitude, without leading zeros. */
  function MinimalBytes(n: nat): seq<Byte> {
    if n == 0 then [] else MinimalBytes(n / 256) + [n % 256]
  }

  /** `common.LeftPadBytes`: a slice that is too long is returned as it is. */
  function LeftPad(s: seq<Byte>, width: nat): seq<Byte> {
    if width <= |s| then s else Zeros(width - |s|) + s
  }

  lemma {:induction false} MinimalLength(n: nat, width: nat)
    ensures |MinimalBytes(n)| <= width <==> n < Pow(256, width)
    decreases width
  {
    if width == 0 {
      assert n > 0 ==> |MinimalBytes(n)| > 0;
    } else if n > 0 {
      MinimalLength(n / 256, width - 1);
    } else {
      PowPositive(width);
    }
  }

  lemma {:induction false} PowPositive(e: nat)
    ensures Pow(256, e) > 0
  {
    if e > 0 { PowPositive(e - 1); }
  }

  lemma {:induction false} ZeroBytes(width: nat)
    ensures BigEndian(0, width) == Zeros(width)
  {
    if width > 0 { ZeroBytes(width - 1); }
  }

  /** Padding the minimal bytes gives the fixed-width encoding. */
  lemma {:induction false} PaddedIsBigEndian(n: nat, width: nat)
    requires n < Pow(256, width)
    ensures LeftPad(MinimalBytes(n), width) == BigEndian(n, width)
    decreases width
  {
    if n == 0 {
      ZeroBytes(width);
      assert Zeros(width) + [] == Zeros(width);
    } else {
      assert width > 0;
      MinimalLength(n, width);
      MinimalLength(n / 256, width - 1);
      PaddedIsBigEndian(n / 256, width - 1);
      assert LeftPad(MinimalBytes(n), width) == LeftPad(MinimalBytes(n / 256), width - 1) + [n % 256];
    }
  }

  // ---- the hashed bytes ----

  lemma {:induction false} BytesRoundTrip(s: seq<Byte>)
    ensures Value(s) < Pow(256, |s|) && BigEndian(Value(s), |s|) == s
  {
    if s != [] {
      BytesRoundTrip(s[..|s| - 1]);
      assert s == s[..|s| - 1] + [s[|s| - 1]];
    }
  }

  /** The word the contract receives for a string argument. */
  function Word32(value: seq<Byte>): Bytes32
  {
    WordSizes();
    BytesRoundTrip(ToBytes32(value));
    Value(ToBytes32(value))
  }

  function Magnitude(amount: int): nat { if amount < 0 then -amount else amount }

  /** What `computeIntentID` hashes. */
  function ApiPreimage(user: Address, amount: int, countryCode: seq<Byte>, txRef: seq<Byte>): seq<Byte> {
    BigEndian(user, 20) + LeftPad(MinimalBytes(Magnitude(amount)), 32) + ToBytes32(countryCode) + ToBytes32(txRef)
  }

  /** For every amount a `uint256` can hold the API hashes the contract's 116-byte layout. */
  lemma SameLayout(user: Address, amount: nat, countryCode: seq<Byte>, txRef: seq<Byte>)
    requires amount < TWO_256
    ensures ApiPreimage(user, amount, countryCode, txRef) == Packed(user, amount, Word32(countryCode), Word32(txRef))
    ensures |ApiPreimage(user, amount, countryCode, txRef)| == 116
  {
    WordSizes();
    PaddedIsBigEndian(amount, 32);
    BytesRoundTrip(ToBytes32(countryCode));
    BytesRoundTrip(ToBytes32(txRef));
  }

  /** Outside that range the layouts part: the API hashes more bytes, and it drops the sign. */
  lemma LayoutOutOfRange(user: Address, amount: int, countryCode: seq<Byte>, txRef: seq<Byte>)
    ensures |ApiPreimage(user, amount, countryCode, txRef)| == 116 <==> Magnitude(amount) < TWO_256
    ensures ApiPreimage(user, -amount, countryCode, txRef) == ApiPreimage(user, amount, countryCode, txRef)
  {
    WordSizes();
    MinimalLength(Magnitude(amount), 32);
  }

  /** No two of these pre-images share a hash; no hash can promise this of all inputs at once. */
  ghost predicate CollisionFree(keccak: seq<Byte> -> Bytes32, preimages: set<seq<Byte>>) {
    forall x, y | x in preimages && y in preimages :: keccak(x) == keccak(y) ==> x == y
  }

  function ApiId(keccak: seq<Byte> -> Bytes32, user: Address, amount: int, countryCode: seq<Byte>, txRef: seq<Byte>): Bytes32 {
    keccak(ApiPreimage(user, amount, countryCode, txRef))
  }

  /** The contract's id function. */
  function IntentHash(keccak: seq<Byte> -> Bytes32): Hash {
    (user: Address, amount: nat, countryCode: Bytes32, txRef: Bytes32) => keccak(Packed(user, amount, countryCode, txRef))
  }

  /** The predicted id is the stored one exactly when the request names the account that sends the transaction. */
  lemma IdsMatchIff(keccak: seq<Byte> -> Bytes32, user: Address, sender: Address, amount: nat, countryCode: seq<Byte>, txRef: seq<Byte>)
    requires amount < TWO_256
    requires CollisionFree(keccak, {Packed(user, amount, Word32(countryCode), Word32(txRef)),
                                    Packed(sender, amount, Word32(countryCode), Word32(txRef))})
    ensures ApiId(keccak, user, amount, countryCode, txRef) ==
              IntentHash(keccak)(sender, amount, Word32(countryCode), Word32(txRef))
            <==> user == sender
  {
    SameLayout(user, amount, countryCode, txRef);
    var c, t := Word32(countryCode), Word32(txRef);
    if keccak(Packed(user, amount, c, t)) == keccak(Packed(sender, amount, c, t)) {
      PackedInjective(user, amount, c, t, sender, amount, c, t);
    }
  }

  /** Collision-free pre-images give collision-free ids, the condition of Intents.AlreadyExistsUnreachable. */
  lemma HashesLift(keccak: seq<Byte> -> Bytes32, fields: set<Intents.Fields>)
    requires forall f | f in fields :: f.1 < TWO_256
    requires CollisionFree(keccak, set f | f in fields :: Packed(f.0, f.1, f.2, f.3))
    ensures Intents.CollisionFree(IntentHash(keccak), fields)
  {
    var preimages := set f | f in fields :: Packed(f.0, f.1, f.2, f.3);
    forall x, y | x in fields && y in fields && IntentHash(keccak)(x.0, x.1, x.2, x.3) == IntentHash(keccak)(y.0, y.1, y.2, y.3)
      ensures x == y
    {
      assert Packed(x.0, x.1, x.2, x.3) in preimages && Packed(y.0, y.1, y.2, y.3) in preimages;
      PackedInjective(x.0, x.1, x.2, x.3, y.0, y.1, y.2, y.3);
    }
  }
}
