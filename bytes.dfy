/** Vocabulary shared by the modules: bytes, fixed-width integers and the exceptions
    the modelled code can throw. */
module Bytes {

  /** A C# `byte`. */
  type Byte = b: int | 0 <= b < 0x100

  /** A C# `ushort`. */
  type UInt16 = x: int | 0 <= x < 0x1_0000

  /** A C# `uint`. */
  type UInt32 = x: int | 0 <= x < 0x1_0000_0000

  datatype Option<+T> = None | Some(value: T)

  /** The exceptions of the modelled operations. */
  datatype Error =
    | VlqTooLarge(v: int)        // WriteVLQ of a value above MAX_VLQ
    | EndOfStream                // a read past the end of the stream
    | MalformedVlq               // a quantity whose fourth byte still has its continuation bit
    | EmptyChunkQueue            // PopChunk without a matching PushChunk
    | NegativeCount              // Array.Resize with a negative size
    | MissingMetaMessage         // Write of a meta event whose MetaMessage is null
    | IndexOutOfRange            // an array read past its last element
    | ArgumentOutOfRange         // List.RemoveAt with an index outside the list
    | DivideByZero               // an integer remainder by zero
    | Overflow                   // int.MinValue % -1
    | NullReference              // a member access through a missing object

  datatype Outcome = Pass | Fail(error: Error)

  datatype Result<+T> = Ok(value: T) | Err(error: Error)

  /** The C# cast `(uint)x` of an `int`: two's complement reinterpretation. */
  function ToUInt32(x: int): (r: UInt32)
    ensures 0 <= x < 0x1_0000_0000 ==> r == x
    ensures -0x8000_0000 <= x < 0 ==> r == x + 0x1_0000_0000
  {
    x % 0x1_0000_0000
  }

  /** The C# cast `(short)x`: the low 16 bits, read as two's complement. */
  function ToInt16(x: int): (r: int)
    ensures -0x8000 <= r < 0x8000
    ensures -0x8000 <= x < 0x8000 ==> r == x
    ensures (r - x) % 0x1_0000 == 0
  {
    (x + 0x8000) % 0x1_0000 - 0x8000
  }

  /** The C# `int` addition and subtraction in an unchecked context: the exact result
      reduced to 32-bit two's complement. */
  function ToInt32(x: int): (r: int)
    ensures -0x8000_0000 <= r < 0x8000_0000
    ensures -0x8000_0000 <= x < 0x8000_0000 ==> r == x
  {
    (x + 0x8000_0000) % 0x1_0000_0000 - 0x8000_0000
  }

  /** Reducing an intermediate sum to 32 bits does not change the reduced final sum:
      a running `int` total equals the reduction of the exact total. */
  lemma ToInt32Add(a: int, d: int)
    ensures ToInt32(ToInt32(a) + d) == ToInt32(a + d)
  {
    var q := (a + 0x8000_0000) / 0x1_0000_0000;
    assert ToInt32(a) == a - q * 0x1_0000_0000;
    ModShift(a + d + 0x8000_0000, q);
  }

  lemma ModShift(x: int, q: int)
    ensures (x - q * 0x1_0000_0000) % 0x1_0000_0000 == x % 0x1_0000_0000
  {
  }

  /** `Mathf.Abs` on a float. */
  function Abs(x: real): (r: real)
    ensures r >= 0.0 && (r == x || r == -x)
  {
    if x < 0.0 then -x else x
  }

  /** The C# `ushort` increment `i++`, which wraps from 65535 to 0. */
  function IncUInt16(i: UInt16): (r: UInt16)
    ensures i < 0xFFFF ==> r == i + 1
    ensures i == 0xFFFF ==> r == 0
  {
    (i + 1) % 0x1_0000
  }

  /** The bytes of `s` in reverse order (what `Array.Reverse` leaves behind). */
  function Reversed<T>(s: seq<T>): (r: seq<T>)
    ensures |r| == |s|
    ensures forall k | 0 <= k < |s| :: r[k] == s[|s| - 1 - k]
  {
    seq(|s|, k requires 0 <= k < |s| => s[|s| - 1 - k])
  }

  lemma ReversedTwice<T>(s: seq<T>)
    ensures Reversed(Reversed(s)) == s
  {
  }

  /** The value of `s` read as a little-endian number (byte 0 least significant). */
  function LittleEndianValue(s: seq<Byte>): nat
  {
    if s == [] then 0 else s[0] + 0x100 * LittleEndianValue(s[1..])
  }

  function Pow256(n: nat): (r: nat)
    ensures r >= 1
  {
    if n == 0 then 1 else 0x100 * Pow256(n - 1)
  }

  /** A little-endian number of n bytes fits in n bytes. */
  lemma {:induction false} LittleEndianBound(s: seq<Byte>)
    ensures LittleEndianValue(s) < Pow256(|s|)
  {
    if s != [] {
      LittleEndianBound(s[1..]);
    }
  }
}
