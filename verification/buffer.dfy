/**
 * The few operations of Node's `Buffer` that the gateway uses, with the range
 * checks that make them throw. A buffer is a sequence of bytes; every
 * operation returns a new sequence instead of mutating in place.
 */
module Buffer {
  import opened Wrappers

  /** An octet; kept as a bounded integer so that byte arithmetic stays linear. */
  type Byte = x: nat | x < 0x100

  /** What a buffer accessor throws: Node raises a `RangeError` both for an
      offset outside the buffer and for a value that does not fit the field. */
  datatype RangeError = OffsetOutOfRange | ValueOutOfRange

  function Min(a: int, b: int): (m: int)
    ensures m <= a && m <= b && (m == a || m == b)
  {
    if a <= b then a else b
  }

  /** The big-endian value of two bytes. */
  function BigEndian16(hi: Byte, lo: Byte): (v: nat)
    ensures v < 0x1_0000
  {
    hi * 0x100 + lo
  }

  /** `Buffer.alloc(n, 0)`. */
  function Alloc(n: nat): (r: seq<Byte>)
    ensures |r| == n
    ensures forall i :: 0 <= i < n ==> r[i] == 0
  {
    seq(n, _ => 0)
  }

  /** `buf.readUInt8(offset)`. */
  function ReadUInt8(buf: seq<Byte>, offset: nat): (r: Result<nat, RangeError>)
    ensures r.Ok? <==> offset < |buf|
    ensures r.Ok? ==> r.value == buf[offset]
  {
    if offset < |buf| then Ok(buf[offset]) else Err(OffsetOutOfRange)
  }

  /** `buf.readUInt16BE(offset)`. */
  function ReadUInt16BE(buf: seq<Byte>, offset: nat): (r: Result<nat, RangeError>)
    ensures r.Ok? <==> offset + 2 <= |buf|
    ensures r.Ok? ==> r.value < 0x1_0000
    ensures r.Ok? ==> r.value / 0x100 == buf[offset] && r.value % 0x100 == buf[offset + 1]
  {
    if offset + 2 <= |buf| then Ok(BigEndian16(buf[offset], buf[offset + 1])) else Err(OffsetOutOfRange)
  }

  /** `buf.writeUInt8(value, offset)`: the value is checked before the offset. */
  function WriteUInt8(buf: seq<Byte>, value: int, offset: nat): (r: Result<seq<Byte>, RangeError>)
    ensures r.Ok? <==> 0 <= value < 0x100 && offset < |buf|
    ensures !(0 <= value < 0x100) ==> r == Err(ValueOutOfRange)
    ensures r.Ok? ==> |r.value| == |buf| && ReadUInt8(r.value, offset) == Ok(value)
    ensures r.Ok? ==> forall i :: 0 <= i < |buf| && i != offset ==> r.value[i] == buf[i]
  {
    if !(0 <= value < 0x100) then Err(ValueOutOfRange)
    else if offset >= |buf| then Err(OffsetOutOfRange)
    else Ok(buf[offset := value])
  }

  /** `buf.writeUInt16BE(value, offset)`. */
  function WriteUInt16BE(buf: seq<Byte>, value: int, offset: nat): (r: Result<seq<Byte>, RangeError>)
    ensures r.Ok? <==> 0 <= value < 0x1_0000 && offset + 2 <= |buf|
    ensures r.Ok? ==> |r.value| == |buf| && ReadUInt16BE(r.value, offset) == Ok(value)
    ensures r.Ok? ==> forall i :: 0 <= i < |buf| && i != offset && i != offset + 1 ==> r.value[i] == buf[i]
  {
    if !(0 <= value < 0x1_0000) then Err(ValueOutOfRange)
    else if offset + 2 > |buf| then Err(OffsetOutOfRange)
    else Ok(buf[offset := value / 0x100][offset + 1 := value % 0x100])
  }

  /** `source.copy(target, 0, 0, sourceEnd)`: Node clamps the end to the
      source's length and to the room left in the target. */
  function Copy(source: seq<Byte>, target: seq<Byte>, sourceEnd: nat): (r: seq<Byte>)
    ensures |r| == |target|
    ensures var n := Min(Min(sourceEnd, |source|), |target|);
      && (forall i :: 0 <= i < n ==> r[i] == source[i])
      && (forall i :: n <= i < |target| ==> r[i] == target[i])
  {
    var n := Min(Min(sourceEnd, |source|), |target|);
    source[..n] + target[n..]
  }

  /** `buf.slice(0, end)`: Node clamps the end to the buffer's length. */
  function Slice(buf: seq<Byte>, end: nat): (r: seq<Byte>)
    ensures |r| == Min(end, |buf|)
    ensures forall i :: 0 <= i < |r| ==> r[i] == buf[i]
  {
    buf[..Min(end, |buf|)]
  }
}
