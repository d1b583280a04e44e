/** Fixed-width big-endian words and the packed layout an intent id is hashed from. */
module Words {
  import opened Common

  function Pow(b: nat, e: nat): nat {
    if e == 0 then 1 else b * Pow(b, e - 1)
  }

  /** The low `width` bytes of n, most significant first. */
  function BigEndian(n: nat, width: nat): (s: seq<Byte>)
    ensures |s| == width
  {
    if width == 0 then [] else BigEndian(n / 256, width - 1) + [n % 256]
  }

  function Value(s: seq<Byte>): nat {
    if s == [] then 0 else 256 * Value(s[..|s| - 1]) + s[|s| - 1]
  }

  /** A number that fits the width is read back from its bytes. */
  lemma {:induction false} BigEndianRoundTrip(n: nat, width: nat)
    requires n < Pow(256, width)
    ensures Value(BigEndian(n, width)) == n
  {
    if width > 0 {
      BigEndianRoundTrip(n / 256, width - 1);
      var s := BigEndian(n, width);
      assert s[..|s| - 1] == BigEndian(n / 256, width - 1);
    }
  }

  lemma MulAssociates(x: nat, y: nat, z: nat)
    ensures x * (y * z) == (x * y) * z
  {
  }

  lemma {:induction false} PowAdd(b: nat, d: nat, e: nat)
    ensures Pow(b, d + e) == Pow(b, d) * Pow(b, e)
  {
    if d > 0 {
      PowAdd(b, d - 1, e);
      MulAssociates(b, Pow(b, d - 1), Pow(b, e));
    }
  }

  /** The widths in use: 20 bytes hold every address and 32 bytes every `uint256`. */
  lemma WordSizes()
    ensures Pow(256, 20) == TWO_160
    ensures Pow(256, 32) == TWO_256
  {
    assert Pow(256, 2) == 0x1_0000;
    PowAdd(256, 2, 2);
    assert Pow(256, 4) == 0x1_0000_0000;
    PowAdd(256, 4, 4);
    assert Pow(256, 8) == 0x1_0000_0000_0000_0000;
    PowAdd(256, 8, 8);
    PowAdd(256, 16, 16);
    PowAdd(256, 16, 4);
  }

  /** `abi.encodePacked(address, uint256, bytes32, bytes32)`: 20 + 32 + 32 + 32 bytes without padding. */
  function Packed(user: Address, amount: nat, countryCode: Bytes32, txRef: Bytes32): (s: seq<Byte>)
    ensures |s| == 116
  {
    BigEndian(user, 20) + BigEndian(amount, 32) + BigEndian(countryCode, 32) + BigEndian(txRef, 32)
  }

  lemma Slices(a: seq<Byte>, b: seq<Byte>, c: seq<Byte>, d: seq<Byte>)
    requires |a| == 20 && |b| == |c| == |d| == 32
    ensures var p := a + b + c + d; p[..20] == a && p[20..52] == b && p[52..84] == c && p[84..116] == d
  {
  }

  /** Where each field is found: 20 bytes of address, then three words. */
  lemma PackedFields(user: Address, amount: nat, countryCode: Bytes32, txRef: Bytes32)
    requires amount < TWO_256
    ensures var p := Packed(user, amount, countryCode, txRef);
            && Value(p[..20]) == user && Value(p[20..52]) == amount
            && Value(p[52..84]) == countryCode && Value(p[84..116]) == txRef
  {
    Slices(BigEndian(user, 20), BigEndian(amount, 32), BigEndian(countryCode, 32), BigEndian(txRef, 32));
    WordSizes();
    BigEndianRoundTrip(user, 20);
    BigEndianRoundTrip(amount, 32);
    BigEndianRoundTrip(countryCode, 32);
    BigEndianRoundTrip(txRef, 32);
  }

  /** The layout is unambiguous: equal bytes come from equal fields. */
  lemma PackedInjective(u1: Address, a1: nat, c1: Bytes32, t1: Bytes32,
                        u2: Address, a2: nat, c2: Bytes32, t2: Bytes32)
    requires a1 < TWO_256 && a2 < TWO_256
    requires Packed(u1, a1, c1, t1) == Packed(u2, a2, c2, t2)
    ensures u1 == u2 && a1 == a2 && c1 == c2 && t1 == t2
  {
    PackedFields(u1, a1, c1, t1);
    PackedFields(u2, a2, c2, t2);
  }
}
