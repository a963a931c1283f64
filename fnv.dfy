/**
 * `generateHash`: the 32-bit FNV-1a hash of a string's bytes, as computed by
 * Go's `hash/fnv` `New32a`: start from the offset basis and, for each byte,
 * XOR it into the low bits and multiply by the FNV prime modulo 2^32.
 */
module Fnv {
  import opened Text

  const OffsetBasis32: nat := 2166136261
  const Prime32: nat := 16777619
  const Modulus32: nat := 0x1_0000_0000

  type uint32 = x: int | 0 <= x < 0x1_0000_0000

  /** `h ^= uint32(b)` */
  function XorByte(h: uint32, b: byte): uint32 {
    ((h as bv32) ^ (b as bv32)) as int
  }

  /** One FNV-1a round: XOR, then multiply with wrap-around. */
  function Round(h: uint32, b: byte): uint32 {
    (XorByte(h, b) * Prime32) % Modulus32
  }

  /** The hash state after consuming `s` from state `h`, first byte first. */
  function Absorb(h: uint32, s: Bytes): uint32
    decreases |s|
  {
    if s == [] then h else Absorb(Round(h, s[0]), s[1..])
  }

  /** `generateHash(s)` */
  function GenerateHash(s: Bytes): uint32 {
    Absorb(OffsetBasis32, s)
  }

  /** Absorbing one more byte is one more round on the previous state. */
  lemma {:induction false} AbsorbSnoc(h: uint32, s: Bytes, b: byte)
    ensures Absorb(h, s + [b]) == Round(Absorb(h, s), b)
    decreases |s|
  {
    if s == [] {
      assert [b][1..] == [];
    } else {
      assert (s + [b])[1..] == s[1..] + [b];
      AbsorbSnoc(Round(h, s[0]), s[1..], b);
    }
  }

  /** Absorbing a concatenation is absorbing its parts one after the other. */
  lemma {:induction false} AbsorbAppend(h: uint32, s: Bytes, t: Bytes)
    ensures Absorb(h, s + t) == Absorb(Absorb(h, s), t)
    decreases |s|
  {
    if s != [] {
      assert (s + t)[1..] == s[1..] + t;
      AbsorbAppend(Round(h, s[0]), s[1..], t);
    } else {
      assert s + t == t;
    }
  }

  /** The hash of the empty string is the offset basis. */
  lemma GenerateHashEmpty()
    ensures GenerateHash([]) == 2166136261
  {
  }

  /** The FNV-1a step: `hash(s + [b]) == ((hash(s) XOR b) * 16777619) mod 2^32`. */
  lemma GenerateHashStep(s: Bytes, b: byte)
    ensures GenerateHash(s + [b]) == (((GenerateHash(s) as bv32 ^ b as bv32) as int) * 16777619) % 0x1_0000_0000
  {
    AbsorbSnoc(OffsetBasis32, s, b);
  }

  /** The published FNV-1a 32-bit test vector for "a". */
  lemma GenerateHashOfA()
    ensures GenerateHash(['a' as int]) == 0xe40c292c
  {
    assert XorByte(OffsetBasis32, 'a' as int) == 0x811c9da4;
    assert Round(OffsetBasis32, 'a' as int) == 0xe40c292c;
    var s: Bytes := ['a' as int];
    assert s[1..] == [];
    assert Absorb(OffsetBasis32, s) == Absorb(Round(OffsetBasis32, s[0]), s[1..]);
  }
}
