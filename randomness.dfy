/** The mask applied to the 32-byte Winning PoSt seed (wincount.go:126-127):
    `randomness[31] &= 0x3f`. Read as a little-endian number, the seed then
    lies below 2^254, inside the scalar field of the proof system. */
module PoStRandomness {
  import opened Types

  /** Length of the seed `store.DrawRandomness` returns. */
  const SeedLength: nat := 32

  /** The seed with the two high bits of byte 31 cleared. */
  function Masked(s: seq<Byte>): (r: seq<Byte>)
    requires |s| >= SeedLength
    ensures |r| == |s|
    ensures r[31] & 0xC0 == 0
    ensures r[31] & 0x3F == s[31] & 0x3F
    ensures forall k :: 0 <= k < |s| && k != 31 ==> r[k] == s[k]
  {
    s[31 := s[31] & 0x3F]
  }

  /** The in-place mask of the source, on the seed's backing array. */
  method MaskInPlace(a: array<Byte>)
    requires a.Length >= SeedLength
    modifies a
    ensures a[..] == Masked(old(a[..]))
  {
    a[31] := a[31] & 0x3F;
  }

  /** Masking a masked seed changes nothing. */
  lemma MaskIdempotent(s: seq<Byte>)
    requires |s| >= SeedLength
    ensures Masked(Masked(s)) == Masked(s)
  {
  }

  /** Two seeds mask alike exactly when they agree everywhere except on
      the two high bits of byte 31. */
  lemma MaskForgetsOnlyHighBits(s: seq<Byte>, t: seq<Byte>)
    requires |s| >= SeedLength && |t| == |s|
    ensures Masked(s) == Masked(t) <==>
      (s[31] & 0x3F == t[31] & 0x3F && forall k :: 0 <= k < |s| && k != 31 ==> s[k] == t[k])
  {
    if s[31] & 0x3F == t[31] & 0x3F && forall k :: 0 <= k < |s| && k != 31 ==> s[k] == t[k] {
      assert forall k :: 0 <= k < |s| ==> Masked(s)[k] == Masked(t)[k];
    }
  }

  function Pow256(n: nat): (p: nat)
    ensures p > 0
  {
    if n == 0 then 1 else 256 * Pow256(n - 1)
  }

  function Value(b: Byte): (v: nat)
    ensures v < 256
  {
    b as nat
  }

  /** The number a byte string stands for, least significant byte first. */
  function LittleEndian(s: seq<Byte>): nat {
    if s == [] then 0 else Value(s[0]) + 256 * LittleEndian(s[1..])
  }

  lemma {:induction false} LittleEndianBound(s: seq<Byte>)
    ensures LittleEndian(s) < Pow256(|s|)
  {
    if s != [] {
      LittleEndianBound(s[1..]);
    }
  }

  lemma {:induction false} LittleEndianLast(s: seq<Byte>)
    requires |s| > 0
    ensures LittleEndian(s) == LittleEndian(s[..|s| - 1]) + Pow256(|s| - 1) * Value(s[|s| - 1])
  {
    var n := |s|;
    var last := Value(s[n - 1]);
    if n == 1 {
      assert s[..0] == [];
      assert s[1..] == [];
    } else {
      var rest, front := s[1..], s[..n - 1];
      LittleEndianLast(rest);
      assert rest[..n - 2] == front[1..];
      assert rest[n - 2] == s[n - 1];
      var a := LittleEndian(front[1..]);
      var b := Pow256(n - 2);
      assert LittleEndian(rest) == a + b * last;
      assert LittleEndian(front) == Value(s[0]) + 256 * a;
      assert Pow256(n - 1) == 256 * b;
      Distribute(Value(s[0]), a, b, last);
    }
  }

  lemma Distribute(x: nat, a: nat, b: nat, c: nat)
    ensures x + 256 * (a + b * c) == (x + 256 * a) + (256 * b) * c
  {
  }

  /** A masked 32-byte seed, as a little-endian number, is below
      64 * 256^31 = 2^254. */
  lemma MaskedIsBelowFieldBound(s: seq<Byte>)
    requires |s| == SeedLength
    ensures LittleEndian(Masked(s)) < 64 * Pow256(31)
  {
    var m := Masked(s);
    LittleEndianLast(m);
    LittleEndianBound(m[..31]);
    ClearedHighBitsBound(m[31]);
    BelowNextMultiple(LittleEndian(m[..31]), Pow256(31), Value(m[31]));
  }

  lemma BelowNextMultiple(low: nat, p: nat, top: nat)
    requires low < p && top <= 63
    ensures low + p * top < 64 * p
  {
    MultiplyMonotone(p, top, 63);
  }

  lemma ClearedHighBitsBound(b: Byte)
    requires b & 0xC0 == 0
    ensures Value(b) <= 63
  {
    assert b <= 0x3F;
  }

  lemma MultiplyMonotone(p: nat, a: nat, b: nat)
    requires a <= b
    ensures p * a <= p * b
  {
  }
}
