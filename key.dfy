/** The composite key under which the transition table stores a transition:
    the state ordinal in bits 63..32, the event ordinal in bits 31..0. */
module CompositeKey {

  /** The underlying integer of a State or Event value. The key scheme only
      addresses ordinals that fit in 32 bits, so an ordinal is a `bv32`. */
  type Ordinal = bv32

  /** `uint64_t`, the key type of the table. */
  newtype u64 = x: int | 0 <= x < 0x1_0000_0000_0000_0000

  /** The 64-bit pattern of a key. */
  function Bits(k: u64): bv64
  {
    k as bv64
  }

  /** The bit pattern of `runtime::key`: the state ordinal shifted into the
      high half, ORed with the event ordinal. */
  function Pack(s: Ordinal, e: Ordinal): (b: bv64)
    ensures b == (s as bv64) * 0x1_0000_0000 + (e as bv64)
    ensures (b >> 32) as bv32 == s && (b & 0xFFFF_FFFF) as bv32 == e
  {
    ((s as bv64) << 32) | (e as bv64)
  }

  /** `runtime::key`, the packed pattern as a `uint64_t`. */
  function Key(s: Ordinal, e: Ordinal): (k: u64)
    ensures Bits(k) == Pack(s, e)
    ensures StateOf(k) == s && EventOf(k) == e
  {
    var b := Pack(s, e);
    BitsRoundTrip(b);
    b as u64
  }

  /** The high half of a key. */
  function StateOf(k: u64): Ordinal
  {
    (Bits(k) >> 32) as bv32
  }

  /** The low half of a key. */
  function EventOf(k: u64): Ordinal
  {
    (Bits(k) & 0xFFFF_FFFF) as bv32
  }

  /** A 64-bit pattern read as a number and converted back is unchanged. */
  lemma BitsRoundTrip(b: bv64)
    ensures (b as u64) as bv64 == b
  {
  }

  /** An ordinal read as a natural number and converted back is unchanged. */
  lemma OrdinalValueRoundTrip(x: Ordinal)
    ensures (x as nat) as bv32 == x
  {
  }

  /** Distinct (state, event) pairs never share a key, and equal pairs always do. */
  lemma KeyInjective(s: Ordinal, e: Ordinal, s': Ordinal, e': Ordinal)
    ensures Key(s, e) == Key(s', e') <==> s == s' && e == e'
  {
  }

  /** The expression of `runtime::key` applied to 64-bit underlying values
      instead of 32-bit ones. */
  function WidePack(s: bv64, e: bv64): bv64
  {
    (s << 32) | e
  }

  /** With 64-bit operands the event's high half spills into the state half:
      (0, 2^32) and (1, 0) share a key, although `Pack` keeps every pair of
      32-bit ordinals apart. This is why ordinals are 32 bits. */
  lemma WideOrdinalsCollide()
    ensures WidePack(0, 0x1_0000_0000) == WidePack(1, 0)
    ensures Pack(0, 0) != Pack(1, 0)
  {
  }

}
