/** Variable-length quantities of the Standard MIDI File 1.0 format ("Conventions"):
    seven payload bits per byte, most significant group first, bit 0x80 set on every
    byte but the last, at most four bytes. */
module Vlq {
  import opened Bytes

  /** `uint.MaxValue >> 4`, the largest value four 7-bit groups hold. */
  const MAX_VLQ: int := 0x0FFF_FFFF

  /** The continuation bytes in front of the final byte: the 7-bit groups of `u`,
      most significant first, each with bit 0x80 set. */
  function Lead(u: nat): seq<Byte>
    decreases u
  {
    if u == 0 then [] else Lead(u / 0x80) + [u % 0x80 + 0x80]
  }

  /** The bytes of a quantity: the continuation bytes of the higher groups, then the
      lowest group with bit 0x80 clear. */
  function Encode(v: nat): seq<Byte>
  {
    Lead(v / 0x80) + [v % 0x80]
  }

  function Pow128(n: nat): (r: nat)
    ensures r >= 1
  {
    if n == 0 then 1 else 0x80 * Pow128(n - 1)
  }

  /** Every byte of Lead(u) carries the continuation bit. */
  lemma {:induction false} LeadContinues(u: nat)
    ensures forall k | 0 <= k < |Lead(u)| :: Lead(u)[k] >= 0x80
  {
    if u != 0 {
      LeadContinues(u / 0x80);
    }
  }

  /** A value below 128^n needs at most n continuation bytes. */
  lemma {:induction false} LeadLength(u: nat, n: nat)
    requires u < Pow128(n)
    ensures |Lead(u)| <= n
  {
    if u != 0 {
      assert n > 0;
      LeadLength(u / 0x80, n - 1);
    }
  }

  /** The shape WriteVLQ promises: one to four bytes, bit 0x80 set on all but the
      last, clear on the last. */
  lemma EncodeShape(v: nat)
    requires v <= MAX_VLQ
    ensures 1 <= |Encode(v)| <= 4
    ensures forall k | 0 <= k < |Encode(v)| - 1 :: Encode(v)[k] >= 0x80
    ensures Encode(v)[|Encode(v)| - 1] < 0x80
  {
    assert Pow128(3) == 0x20_0000;
    LeadLength(v / 0x80, 3);
    LeadContinues(v / 0x80);
  }

  /** A value below 0x80 is written as the single byte equal to it. */
  lemma EncodeSmall(v: nat)
    requires v < 0x80
    ensures Encode(v) == [v]
  {
  }

  /** Reading a quantity the way MidiReader.ReadVLQ reads it: `acc` is the value of the
      groups read so far and `n` the number of bytes read so far. The result is the
      value and the number of bytes consumed. */
  function DecodeGroups(s: seq<Byte>, acc: nat, n: nat): Result<(nat, nat)>
    requires n < 4
    decreases 4 - n
  {
    if s == [] then Err(EndOfStream)
    else if s[0] < 0x80 then Ok((acc * 0x80 + s[0], n + 1))
    else if n == 3 then Err(MalformedVlq)
    else DecodeGroups(s[1..], acc * 0x80 + (s[0] - 0x80), n + 1)
  }

  function Decode(s: seq<Byte>): Result<(nat, nat)>
  {
    DecodeGroups(s, 0, 0)
  }

  /** Reading through continuation bytes shifts the accumulated value by seven bits
      per byte and adds their groups. */
  lemma {:induction false} DecodeLead(u: nat, t: seq<Byte>, acc: nat, n: nat)
    requires n + |Lead(u)| < 4
    ensures DecodeGroups(Lead(u) + t, acc, n)
         == DecodeGroups(t, acc * Pow128(|Lead(u)|) + u, n + |Lead(u)|)
  {
    if u == 0 {
      assert Lead(u) + t == t;
    } else {
      var b := u % 0x80 + 0x80;
      var m := |Lead(u / 0x80)|;
      assert Lead(u) + t == Lead(u / 0x80) + ([b] + t);
      DecodeLead(u / 0x80, [b] + t, acc, n);
      var acc' := acc * Pow128(m) + u / 0x80;
      assert |Lead(u)| == m + 1 && Pow128(m + 1) == Pow128(m) * 0x80;
      assert ([b] + t)[1..] == t && b - 0x80 == u % 0x80;
      assert DecodeGroups([b] + t, acc', n + m) == DecodeGroups(t, acc' * 0x80 + u % 0x80, n + m + 1);
      ShiftGroup(acc, Pow128(m), u);
    }
  }

  /** Appending the group `u % 128` to `acc * p + u / 128` shifted by seven bits. */
  lemma ShiftGroup(acc: nat, p: nat, u: nat)
    ensures (acc * p + u / 0x80) * 0x80 + u % 0x80 == acc * (p * 0x80) + u
  {
    calc {
      (acc * p + u / 0x80) * 0x80 + u % 0x80;
      acc * p * 0x80 + (u / 0x80) * 0x80 + u % 0x80;
      { assert (u / 0x80) * 0x80 + u % 0x80 == u; }
      acc * p * 0x80 + u;
    }
  }

  /** VLQ round trip: reading the bytes WriteVLQ emits, whatever follows them, gives
      back the value and consumes exactly those bytes. */
  lemma DecodeEncode(v: nat, t: seq<Byte>)
    requires v <= MAX_VLQ
    ensures Decode(Encode(v) + t) == Ok((v, |Encode(v)|))
  {
    EncodeShape(v);
    var m := |Lead(v / 0x80)|;
    assert Encode(v) + t == Lead(v / 0x80) + ([v % 0x80] + t);
    DecodeLead(v / 0x80, [v % 0x80] + t, 0, 0);
  }

  /** Two values with the same encoding are equal: the encoding loses nothing. */
  lemma EncodeInjective(v: nat, w: nat)
    requires v <= MAX_VLQ && w <= MAX_VLQ
    requires Encode(v) == Encode(w)
    ensures v == w
  {
    DecodeEncode(v, []);
    DecodeEncode(w, []);
  }
}
