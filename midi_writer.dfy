/** MidiWriter: a BinaryWriter over a seekable stream that adds variable-length
    quantities, endian-resolving writes and chunk size back-patching. The stream is a
    sequence of bytes with a position; writing at the position overwrites and extends. */
module MidiWriting {
  import opened Bytes
  import Vlq
  import opened MidiEvents

  /** The stream after writing `data` at `pos`: bytes before `pos` and after the
      written range are kept, the stream grows when the data runs past its end. */
  function Overwrite(s: seq<Byte>, pos: nat, data: seq<Byte>): (r: seq<Byte>)
    requires pos <= |s|
    ensures |r| == if pos + |data| > |s| then pos + |data| else |s|
    ensures r[..pos] == s[..pos]
    ensures r[pos..pos + |data|] == data
    ensures pos + |data| < |s| ==> r[pos + |data|..] == s[pos + |data|..]
  {
    s[..pos] + data + (if pos + |data| < |s| then s[pos + |data|..] else [])
  }

  /** Writing nothing leaves the stream as it was. */
  lemma OverwriteEmpty(s: seq<Byte>, pos: nat)
    requires pos <= |s|
    ensures Overwrite(s, pos, []) == s
  {
    assert s[..pos] + s[pos..] == s;
  }

  /** Two consecutive writes are one write of the concatenation. */
  lemma OverwriteConcat(s: seq<Byte>, pos: nat, a: seq<Byte>, b: seq<Byte>)
    requires pos <= |s|
    ensures Overwrite(Overwrite(s, pos, a), pos + |a|, b) == Overwrite(s, pos, a + b)
  {
    var l := Overwrite(Overwrite(s, pos, a), pos + |a|, b);
    var r := Overwrite(s, pos, a + b);
    assert |l| == |r|;
    forall k | 0 <= k < |l|
      ensures l[k] == r[k]
    {
      if k < pos {
        assert l[k] == l[..pos][k];
        assert r[k] == r[..pos][k];
      } else if k < pos + |a| + |b| {
        assert r[k] == r[pos..pos + |a| + |b|][k - pos];
        if k < pos + |a| {
          assert l[k] == l[..pos + |a|][k];
          assert Overwrite(s, pos, a)[k] == Overwrite(s, pos, a)[pos..pos + |a|][k - pos];
        } else {
          assert l[k] == l[pos + |a|..pos + |a| + |b|][k - pos - |a|];
        }
      } else {
        assert l[k] == l[pos + |a| + |b|..][k - pos - |a| - |b|];
        assert r[k] == r[pos + |a| + |b|..][k - pos - |a| - |b|];
      }
    }
  }

  /** The bytes as they reach the stream: reversed when the requested endianness differs
      from the host's and the caller asked for it to be resolved. */
  function Oriented(s: seq<Byte>, reverse: bool): (r: seq<Byte>)
    ensures |r| == |s|
  {
    if reverse then Reversed(s) else s
  }

  /** `Array.Resize` of a byte array: the first `count` bytes, padded with zeros. */
  function Resized(s: seq<Byte>, count: nat): (r: seq<Byte>)
    ensures |r| == count
    ensures forall k | 0 <= k < count :: r[k] == if k < |s| then s[k] else 0
  {
    seq(count, k requires 0 <= k < count => if k < |s| then s[k] else 0)
  }

  // ---------------------------------------------------------------------------
  // Fixed-width values. BinaryWriter writes them least significant byte first.

  function Le16(v: bv16): (r: seq<Byte>)
    ensures |r| == 2
  {
    [(v & 0xFF) as int, ((v >> 8) & 0xFF) as int]
  }

  function Le32(v: bv32): (r: seq<Byte>)
    ensures |r| == 4
  {
    [(v & 0xFF) as int, ((v >> 8) & 0xFF) as int,
     ((v >> 16) & 0xFF) as int, ((v >> 24) & 0xFF) as int]
  }

  /** `Write(ushort)`'s swap, computed on an int and cast back to ushort. */
  function Swap16(value: bv16): bv16
  {
    var v := value as bv32;
    (((v << 8) | ((v >> 8) & 0xFF)) & 0xFFFF) as bv16
  }

  /** `Write(uint)`'s swap: bytes exchanged in pairs, then halves exchanged. */
  function Swap32(value: bv32): bv32
  {
    var v := ((value << 8) & 0xFF00FF00) | ((value >> 8) & 0xFF00FF);
    (v << 16) | ((v >> 16) & 0xFFFF)
  }

  /** The low byte and the shifted value of a 16-bit value, as integers. */
  lemma Split16(v: bv16)
    ensures (v & 0xFF) as int == v as int % 0x100
    ensures (v >> 8) as int == v as int / 0x100
  {
  }

  /** Read least significant byte first, the two bytes of a 16-bit value give it back. */
  lemma Le16Value(v: bv16)
    ensures LittleEndianValue(Le16(v)) == v as int
  {
    Split16(v);
    assert ((v >> 8) & 0xFF) == v >> 8;
    assert LittleEndianValue(Le16(v)[1..]) == ((v >> 8) & 0xFF) as int;
  }

  /** Swapping twice gives the value back. */
  lemma Swap16Involution(v: bv16)
    ensures Swap16(Swap16(v)) == v
  {
  }

  /** The same for the 32-bit swap. */
  lemma Swap32Involution(v: bv32)
    ensures Swap32(Swap32(v)) == v
  {
  }

  /** Byte by byte, the 16-bit swap exchanges the two bytes. */
  lemma Swap16Bytes(v: bv16)
    ensures (Swap16(v) & 0xFF) == ((v >> 8) & 0xFF)
    ensures ((Swap16(v) >> 8) & 0xFF) == (v & 0xFF)
  {
  }

  /** The 16-bit swap reverses the byte order. */
  lemma Swap16Reverses(v: bv16)
    ensures Le16(Swap16(v)) == Reversed(Le16(v))
  {
    Swap16Bytes(v);
  }

  /** Byte by byte, the 32-bit swap exchanges byte k and byte 3 - k. */
  lemma Swap32Bytes(v: bv32)
    ensures (Swap32(v) & 0xFF) == ((v >> 24) & 0xFF)
    ensures ((Swap32(v) >> 8) & 0xFF) == ((v >> 16) & 0xFF)
    ensures ((Swap32(v) >> 16) & 0xFF) == ((v >> 8) & 0xFF)
    ensures ((Swap32(v) >> 24) & 0xFF) == (v & 0xFF)
  {
  }

  /** The 32-bit swap reverses the byte order. */
  lemma Swap32Reverses(v: bv32)
    ensures Le32(Swap32(v)) == Reversed(Le32(v))
  {
    Swap32Bytes(v);
    var l := Le32(v);
    assert Reversed(l) == [l[3], l[2], l[1], l[0]];
  }

  /** The value of two or four bytes read in the given byte order. */
  function EndianValue(s: seq<Byte>, littleEndian: bool): nat
  {
    if littleEndian then LittleEndianValue(s) else LittleEndianValue(Reversed(s))
  }

  /** A buffer holding at most three bytes still has room for a fourth. */
  lemma BufferRoom(s: seq<Byte>)
    requires |s| <= 3
    ensures LittleEndianValue(s) * 0x100 + 0xFF < 0x1_0000_0000
  {
    LittleEndianBound(s);
    assert Pow256(|s|) <= 0x100_0000 by {
      if |s| == 0 { } else if |s| == 1 { } else if |s| == 2 { } else { assert |s| == 3; }
    }
  }

  /** The lowest byte of a little-endian buffer is its first byte; shifting it out
      leaves the value of the remaining bytes. */
  lemma LowestByte(s: seq<Byte>)
    requires s != []
    ensures LittleEndianValue(s) % 0x100 == s[0]
    ensures LittleEndianValue(s) / 0x100 == LittleEndianValue(s[1..])
  {
    var q := LittleEndianValue(s[1..]);
    assert LittleEndianValue(s) == s[0] + 0x100 * q;
  }

  /** One round of the VLQ write loop: the low byte of the buffer is the next encoded
      byte, and the loop goes on exactly while that byte has its continuation bit. */
  lemma VlqBufferStep(enc: seq<Byte>, i: nat, buffer: nat)
    requires i < |enc| && buffer == LittleEndianValue(enc[i..])
    requires forall k | 0 <= k < |enc| - 1 :: enc[k] >= 0x80
    requires enc[|enc| - 1] < 0x80
    ensures buffer % 0x100 == enc[i] && enc[..i] + [enc[i]] == enc[..i + 1]
    ensures enc[i] >= 0x80 ==> i + 1 < |enc| && buffer / 0x100 == LittleEndianValue(enc[i + 1..])
    ensures enc[i] < 0x80 ==> i + 1 == |enc| && enc[..i + 1] == enc
  {
    LowestByte(enc[i..]);
    assert enc[i..][1..] == enc[i + 1..];
  }

  class MidiWriter {
    /** The underlying stream's bytes and position. */
    var stream: seq<Byte>
    var position: nat
    /** `chunkPosQueue`: the start positions of the open chunks, oldest first. */
    var chunkPositions: seq<nat>
    /** The byte order the file is written in. */
    const isLittleEndian: bool
    /** `BitConverter.IsLittleEndian`. */
    const hostIsLittleEndian: bool

    ghost predicate Valid()
      reads this
    {
      position <= |stream| &&
      forall k | 0 <= k < |chunkPositions| :: chunkPositions[k] <= position
    }

    /** Whether fixed-width values are byte-swapped before BinaryWriter writes them. */
    function Swaps(): bool
      reads this
    {
      isLittleEndian != hostIsLittleEndian
    }

    constructor (input: seq<Byte>, isLittleEndian: bool, hostIsLittleEndian: bool)
      ensures Valid()
      ensures stream == input && position == 0 && chunkPositions == []
      ensures this.isLittleEndian == isLittleEndian && this.hostIsLittleEndian == hostIsLittleEndian
    {
      stream := input;
      position := 0;
      chunkPositions := [];
      this.isLittleEndian := isLittleEndian;
      this.hostIsLittleEndian := hostIsLittleEndian;
    }

    /** `base.Write(byte[])`: the bytes at the position, which advances past them. */
    method Emit(data: seq<Byte>)
      requires Valid()
      modifies this
      ensures Valid()
      ensures stream == Overwrite(old(stream), old(position), data)
      ensures position == old(position) + |data|
      ensures chunkPositions == old(chunkPositions)
    {
      stream := Overwrite(stream, position, data);
      position := position + |data|;
    }

    /** `base.Write(byte)`. */
    method WriteByte(b: Byte)
      requires Valid()
      modifies this
      ensures Valid()
      ensures stream == Overwrite(old(stream), old(position), [b])
      ensures position == old(position) + 1
      ensures chunkPositions == old(chunkPositions)
    {
      Emit([b]);
    }

    /** ResetChunk: forgets every open chunk. */
    method ResetChunk()
      requires Valid()
      modifies this
      ensures Valid()
      ensures chunkPositions == []
      ensures stream == old(stream) && position == old(position)
    {
      chunkPositions := [];
    }

    /** PushChunk: `header` is what the chunk handler writes (the id and a size
        placeholder). The queued start is after the header unless the header belongs
        to the chunk. */
    method PushChunk(header: seq<Byte>, includeChunkDefinition: bool)
      requires Valid()
      modifies this
      ensures Valid()
      ensures stream == Overwrite(old(stream), old(position), header)
      ensures position == old(position) + |header|
      ensures chunkPositions == old(chunkPositions) +
        [if includeChunkDefinition then old(position) else old(position) + |header|]
    {
      if !includeChunkDefinition {
        Emit(header);
      }
      chunkPositions := chunkPositions + [position];
      if includeChunkDefinition {
        Emit(header);
      }
    }

    /** PopChunk: takes the OLDEST queued start (the queue is first-in first-out),
        writes what the size handler writes for the distance from that start to the
        position, at that start, and restores the position. With no chunk queued the
        dequeue throws and nothing changes. */
    method PopChunk(sizeBytes: int -> seq<Byte>) returns (outcome: Outcome)
      requires Valid()
      modifies this
      ensures Valid()
      ensures old(chunkPositions) == [] ==>
        outcome == Fail(EmptyChunkQueue) && stream == old(stream) && position == old(position)
        && chunkPositions == []
      ensures old(chunkPositions) != [] ==>
        outcome == Pass && chunkPositions == old(chunkPositions)[1..] &&
        position == old(position) &&
        stream == Overwrite(old(stream), old(chunkPositions)[0],
                            sizeBytes(old(position) - old(chunkPositions)[0]))
    {
      if chunkPositions == [] {
        return Fail(EmptyChunkQueue);
      }
      var start := chunkPositions[0];
      chunkPositions := chunkPositions[1..];
      var size := position - start;
      position := start;
      stream := Overwrite(stream, position, sizeBytes(size));
      position := start + size;
      outcome := Pass;
    }

    /** A chunk written with PushChunk, its body, then PopChunk: the size handler is
        given exactly the number of bytes between the chunk start and its end, that is
        the body, plus the header when it belongs to the chunk, and writes at the start. */
    method WriteChunk(header: seq<Byte>, body: seq<Byte>, includeChunkDefinition: bool,
                      sizeBytes: int -> seq<Byte>) returns (outcome: Outcome)
      requires Valid() && chunkPositions == []
      modifies this
      ensures Valid()
      ensures outcome == Pass && chunkPositions == []
      ensures position == old(position) + |header| + |body|
      ensures stream == Overwrite(
        Overwrite(old(stream), old(position), header + body),
        if includeChunkDefinition then old(position) else old(position) + |header|,
        sizeBytes(if includeChunkDefinition then |header| + |body| else |body|))
    {
      PushChunk(header, includeChunkDefinition);
      Emit(body);
      OverwriteConcat(old(stream), old(position), header, body);
      outcome := PopChunk(sizeBytes);
    }

    /** `Array.Reverse` of a byte array, in place. */
    static method ReverseInPlace(a: array<Byte>)
      modifies a
      ensures a[..] == Reversed(old(a[..]))
    {
      var i := 0;
      while i < a.Length / 2
        invariant 0 <= i <= a.Length / 2
        invariant forall k | 0 <= k < i ::
          a[k] == old(a[a.Length - 1 - k]) && a[a.Length - 1 - k] == old(a[k])
        invariant forall k | i <= k < a.Length - i :: a[k] == old(a[k])
      {
        a[i], a[a.Length - 1 - i] := a[a.Length - 1 - i], a[i];
        i := i + 1;
      }
    }

    /** `WriteBytes(bytes, resolveEndian)`: writes the array, reversed when the byte
        order has to be resolved, and leaves the caller's array as it was. */
    method WriteBytes(bytes: array<Byte>, resolveEndian: bool)
      requires Valid()
      modifies this, bytes
      ensures Valid()
      ensures bytes[..] == old(bytes[..])
      ensures stream == Overwrite(old(stream), old(position),
                                  Oriented(old(bytes[..]), Swaps() && resolveEndian))
      ensures position == old(position) + bytes.Length
      ensures chunkPositions == old(chunkPositions)
    {
      if Swaps() && resolveEndian {
        ReverseInPlace(bytes);
      }
      Emit(bytes[..]);
      if Swaps() && resolveEndian {
        ReverseInPlace(bytes);
        ReversedTwice(old(bytes[..]));
      }
    }

    /** `Array.Resize(ref a, count)`: the same array when the length already matches,
        otherwise a new one holding the first `count` bytes padded with zeros. */
    static method Resize(a: array<Byte>, count: nat) returns (b: array<Byte>)
      ensures b[..] == Resized(a[..], count)
      ensures count == a.Length ==> b == a
      ensures count != a.Length ==> fresh(b)
    {
      if count == a.Length {
        assert a[..] == Resized(a[..], count);
        return a;
      }
      b := new Byte[count];
      var i := 0;
      while i < count
        invariant 0 <= i <= count
        invariant forall k | 0 <= k < i :: b[k] == if k < a.Length then a[k] else 0
      {
        b[i] := if i < a.Length then a[i] else 0;
        i := i + 1;
      }
    }

    /** `WriteBytes(bytes, count, resolveEndian)`: writes the array resized to `count`;
        the caller's array is left as it was. A negative count makes Array.Resize throw. */
    method WriteBytesResized(bytes: array<Byte>, count: int, resolveEndian: bool)
      returns (outcome: Outcome)
      requires Valid()
      modifies this, bytes
      ensures Valid()
      ensures bytes[..] == old(bytes[..])
      ensures count < 0 ==>
        outcome == Fail(NegativeCount) && stream == old(stream) && position == old(position)
      ensures count >= 0 ==>
        outcome == Pass &&
        stream == Overwrite(old(stream), old(position),
                            Oriented(Resized(old(bytes[..]), count), Swaps() && resolveEndian)) &&
        position == old(position) + count
      ensures chunkPositions == old(chunkPositions)
    {
      if count < 0 {
        return Fail(NegativeCount);
      }
      var resized := Resize(bytes, count);
      WriteBytes(resized, resolveEndian);
      outcome := Pass;
    }

    /** The first loop of `WriteVLQ`: the 7-bit groups of `v` packed into a 32-bit
        buffer, least significant group in the lowest byte, so that reading the buffer
        from its lowest byte up yields the quantity's bytes in file order. */
    static method VlqBuffer(v: UInt32) returns (buffer: UInt32)
      requires v <= Vlq.MAX_VLQ
      ensures buffer == LittleEndianValue(Vlq.Encode(v))
    {
      Vlq.EncodeShape(v);
      var rest: int := v / 0x80;
      buffer := v % 0x80;
      ghost var pending: seq<Byte> := [v % 0x80];
      while rest > 0
        invariant 0 <= rest
        invariant buffer == LittleEndianValue(pending)
        invariant Vlq.Lead(rest) + pending == Vlq.Encode(v)
        decreases rest
      {
        assert Vlq.Lead(rest) == Vlq.Lead(rest / 0x80) + [rest % 0x80 + 0x80];
        assert |pending| <= 3 by {
          assert |Vlq.Lead(rest)| + |pending| == |Vlq.Encode(v)|;
        }
        BufferRoom(pending);
        // buffer <<= 8; buffer |= (v & 0x7F) | 0x80
        buffer := buffer * 0x100 + (rest % 0x80 + 0x80);
        pending := [rest % 0x80 + 0x80] + pending;
        assert Vlq.Lead(rest / 0x80) + pending == Vlq.Lead(rest) + pending[1..];
        rest := rest / 0x80;
      }
      assert Vlq.Lead(rest) == [];
      assert pending == Vlq.Encode(v);
    }

    /** `WriteVLQ(uint)`: throws, writing nothing, above MAX_VLQ; otherwise builds the
        groups least significant first in a 32-bit buffer, one byte per group with the
        continuation bit on all but the lowest group, then writes the buffer's bytes
        from the least significant one until a byte without the continuation bit. */
    method WriteVlq(v: UInt32) returns (outcome: Outcome)
      requires Valid()
      modifies this
      ensures Valid()
      ensures v > Vlq.MAX_VLQ ==>
        outcome == Fail(VlqTooLarge(v)) && stream == old(stream) && position == old(position)
      ensures v <= Vlq.MAX_VLQ ==>
        outcome == Pass &&
        stream == Overwrite(old(stream), old(position), Vlq.Encode(v)) &&
        position == old(position) + |Vlq.Encode(v)|
      ensures chunkPositions == old(chunkPositions)
    {
      if v > Vlq.MAX_VLQ {
        return Fail(VlqTooLarge(v));
      }
      var buffer := VlqBuffer(v);
      ghost var enc := Vlq.Encode(v);
      Vlq.EncodeShape(v);
      ghost var i := 0;
      ghost var start := position;
      ghost var initial := stream;
      while true
        invariant 0 <= i < |enc|
        invariant buffer == LittleEndianValue(enc[i..])
        invariant Valid() && start <= |initial|
        invariant stream == Overwrite(initial, start, enc[..i])
        invariant position == start + i
        invariant chunkPositions == old(chunkPositions)
        decreases |enc| - i
      {
        var b := buffer % 0x100;   // (byte)buffer
        VlqBufferStep(enc, i, buffer);
        WriteByte(b);
        OverwriteConcat(initial, start, enc[..i], [b]);
        i := i + 1;
        if b >= 0x80 {             // (buffer & 0x80) == 0x80
          buffer := buffer / 0x100;
        } else {
          break;
        }
      }
      outcome := Pass;
    }

    /** `WriteVLQ(int)`: the int reinterpreted as uint. */
    method WriteVlqInt(v: int) returns (outcome: Outcome)
      requires Valid()
      modifies this
      ensures Valid()
      ensures ToUInt32(v) > Vlq.MAX_VLQ ==>
        outcome == Fail(VlqTooLarge(ToUInt32(v))) && stream == old(stream) && position == old(position)
      ensures ToUInt32(v) <= Vlq.MAX_VLQ ==>
        outcome == Pass &&
        stream == Overwrite(old(stream), old(position), Vlq.Encode(ToUInt32(v))) &&
        position == old(position) + |Vlq.Encode(ToUInt32(v))|
      ensures chunkPositions == old(chunkPositions)
    {
      outcome := WriteVlq(ToUInt32(v));
    }

    /** `Write(ushort)`: swapped when the requested byte order differs from the host's,
        then written by BinaryWriter least significant byte first. */
    method Write16(value: bv16)
      requires Valid()
      modifies this
      ensures Valid()
      ensures stream == Overwrite(old(stream), old(position), Oriented(Le16(value), Swaps()))
      ensures position == old(position) + 2
      ensures chunkPositions == old(chunkPositions)
    {
      var v := value;
      if Swaps() {
        v := Swap16(v);
        Swap16Reverses(value);
      }
      Emit(Le16(v));
    }

    /** `Write(short)`: the short reinterpreted as ushort. */
    method Write16Signed(value: int)
      requires -0x8000 <= value < 0x8000
      requires Valid()
      modifies this
      ensures Valid()
      ensures stream == Overwrite(old(stream), old(position),
                                  Oriented(Le16((value % 0x1_0000) as bv16), Swaps()))
      ensures position == old(position) + 2
      ensures chunkPositions == old(chunkPositions)
    {
      Write16((value % 0x1_0000) as bv16);
    }

    /** `Write(uint)`: swapped when the requested byte order differs from the host's,
        then written by BinaryWriter least significant byte first. */
    method Write32(value: bv32)
      requires Valid()
      modifies this
      ensures Valid()
      ensures stream == Overwrite(old(stream), old(position), Oriented(Le32(value), Swaps()))
      ensures position == old(position) + 4
      ensures chunkPositions == old(chunkPositions)
    {
      var v := value;
      if Swaps() {
        v := Swap32(v);
        Swap32Reverses(value);
      }
      Emit(Le32(v));
    }

    /** `Write(int)`: the int reinterpreted as uint. */
    method Write32Signed(value: int)
      requires -0x8000_0000 <= value < 0x8000_0000
      requires Valid()
      modifies this
      ensures Valid()
      ensures stream == Overwrite(old(stream), old(position),
                                  Oriented(Le32(ToUInt32(value) as bv32), Swaps()))
      ensures position == old(position) + 4
      ensures chunkPositions == old(chunkPositions)
    {
      Write32(ToUInt32(value) as bv32);
    }

    /** `MetaMessage.Write`: type byte, VLQ length, payload; a payload too long for a
        quantity makes the length write throw once the type byte is written. */
    method WriteMeta(m: MetaMessage) returns (outcome: Outcome)
      requires Valid()
      modifies this
      ensures Valid()
      ensures stream == Overwrite(old(stream), old(position), MetaBytes(m).bytes)
      ensures position == old(position) + |MetaBytes(m).bytes|
      ensures outcome == MetaBytes(m).outcome
      ensures chunkPositions == old(chunkPositions)
    {
      var s0, p0 := stream, position;
      WriteByte(m.typeByte);
      if |m.data| > Vlq.MAX_VLQ {
        return Fail(VlqTooLarge(|m.data|));
      }
      outcome := WriteVlq(|m.data|);
      OverwriteConcat(s0, p0, [m.typeByte], Vlq.Encode(|m.data|));
      Emit(m.data);
      OverwriteConcat(s0, p0, [m.typeByte] + Vlq.Encode(|m.data|), m.data);
    }

    /** `MidiEvent.Write` with the data bytes of every channel-voice message, pitch
        wheel change included: delta-ticks, status, then the meta message or the data
        bytes. */
    method WriteEvent(e: MidiEvent) returns (outcome: Outcome)
      requires Valid()
      modifies this
      ensures Valid()
      ensures stream == Overwrite(old(stream), old(position), EventBytes(e).bytes)
      ensures position == old(position) + |EventBytes(e).bytes|
      ensures outcome == EventBytes(e).outcome
      ensures chunkPositions == old(chunkPositions)
    {
      var s0, p0 := stream, position;
      outcome := WriteVlqInt(e.deltaTicks);
      if outcome.Fail? {
        assert EventBytes(e) == Written([], outcome);
        OverwriteEmpty(s0, p0);
        return;
      }
      ghost var head := Vlq.Encode(ToUInt32(e.deltaTicks)) + [e.status];
      WriteByte(e.status);
      OverwriteConcat(s0, p0, Vlq.Encode(ToUInt32(e.deltaTicks)), [e.status]);
      assert stream == Overwrite(s0, p0, head) && position == p0 + |head|;
      outcome := WritePayload(e);
      OverwriteConcat(s0, p0, head, EmitPayload(e, ChannelData(e)).bytes);
    }

    /** The rest of `MidiEvent.Write` after the status byte. */
    method WritePayload(e: MidiEvent) returns (outcome: Outcome)
      requires Valid()
      modifies this
      ensures Valid()
      ensures stream == Overwrite(old(stream), old(position), EmitPayload(e, ChannelData(e)).bytes)
      ensures position == old(position) + |EmitPayload(e, ChannelData(e)).bytes|
      ensures outcome == EmitPayload(e, ChannelData(e)).outcome
      ensures chunkPositions == old(chunkPositions)
    {
      if IsMetaMessage(e) {
        match e.meta
        case None =>
          OverwriteEmpty(stream, position);
          outcome := Fail(MissingMetaMessage);
        case Some(m) =>
          outcome := WriteMeta(m);
      } else if IsChannelVoiceMessage(e) {
        WriteChannelData(e);
        outcome := Pass;
      } else {
        OverwriteEmpty(stream, position);
        outcome := Pass;
      }
    }

    /** The data bytes of a channel-voice message, one WriteByte each. */
    method WriteChannelData(e: MidiEvent)
      requires Valid()
      modifies this
      ensures Valid()
      ensures stream == Overwrite(old(stream), old(position), ChannelData(e))
      ensures position == old(position) + |ChannelData(e)|
      ensures chunkPositions == old(chunkPositions)
    {
      var data := ChannelData(e);
      if |data| == 1 {
        WriteByte(e.data1);
      } else if |data| == 2 {
        var s0, p0 := stream, position;
        WriteByte(e.data1);
        WriteByte(e.data2);
        OverwriteConcat(s0, p0, [e.data1], [e.data2]);
        assert [e.data1] + [e.data2] == data;
      } else {
        OverwriteEmpty(stream, position);
      }
    }
  }

  /** With a little-endian host (where BinaryWriter's order and the host's agree), a
      16-bit value reaches the stream in the byte order the writer was asked for. */
  lemma Write16InRequestedOrder(value: bv16, isLittleEndian: bool)
    ensures EndianValue(Oriented(Le16(value), isLittleEndian != true), isLittleEndian)
         == value as int
  {
    ReversedTwice(Le16(value));
    Le16Value(value);
  }

  /** The same for 32-bit values: the value read does not depend on the requested
      order and is the little-endian reading of the value's four bytes. */
  lemma Write32InRequestedOrder(value: bv32, isLittleEndian: bool)
    ensures EndianValue(Oriented(Le32(value), isLittleEndian != true), isLittleEndian)
         == EndianValue(Le32(value), true)
  {
    ReversedTwice(Le32(value));
  }

  /** With a big-endian host the host comparison picks the wrong case: BinaryWriter
      still writes little-endian, so whichever order the writer asks for, the bytes
      read back in that order give the value with its bytes reversed. */
  lemma Write16OnBigEndianHost(value: bv16, isLittleEndian: bool)
    ensures EndianValue(Oriented(Le16(value), isLittleEndian != false), isLittleEndian)
         == Swap16(value) as int
  {
    Swap16Reverses(value);
    Le16Value(Swap16(value));
  }

  /** The same for 32-bit values. */
  lemma Write32OnBigEndianHost(value: bv32, isLittleEndian: bool)
    ensures EndianValue(Oriented(Le32(value), isLittleEndian != false), isLittleEndian)
         == LittleEndianValue(Le32(Swap32(value)))
  {
    Swap32Reverses(value);
  }
}
