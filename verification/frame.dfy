/**
 * The Modbus-TCP frame codec of the gateway: recognising a complete MBAP
 * frame (`validate`) and building the exception reply sent when no DTU is
 * connected (`buildError`).
 *
 * An MBAP frame starts with a 7-byte header: transaction id (2 bytes),
 * protocol id (2 bytes, 0 for Modbus), length (2 bytes, big-endian, counting
 * the unit id and the PDU), unit id (1 byte); the PDU follows, its first byte
 * being the function code.
 */
module Frame {
  import opened Wrappers
  import opened Buffer

  /** Size of the MBAP header fields before the unit id. */
  const LengthFieldEnd: nat := 6

  /** Exception code 0x0A of the Modbus application protocol: gateway path unavailable. */
  const GatewayPathUnavailable: Byte := 0x0A

  /** Bit that turns a function code into the matching exception function code. */
  const ExceptionBit: nat := 0x80

  /** The protocol id (bytes 2..3) reads as 0: the chunk claims to be Modbus. */
  predicate ClaimsModbus(data: seq<Byte>) {
    |data| >= 4 && data[2] == 0 && data[3] == 0
  }

  /** Total size the header declares: its length field plus the 6 bytes up to
      and including that field. */
  function DeclaredSize(data: seq<Byte>): (n: nat)
    requires |data| >= 6
    ensures LengthFieldEnd <= n < LengthFieldEnd + 0x1_0000
  {
    BigEndian16(data[4], data[5]) + LengthFieldEnd
  }

  /** A complete MBAP frame: Modbus protocol id, and exactly as long as declared. */
  predicate IsFrame(data: seq<Byte>) {
    ClaimsModbus(data) && |data| >= 6 && DeclaredSize(data) == |data|
  }

  /** `validate(data)`: the protocol id is read first and, only when it is 0,
      the length field; each read throws on a buffer too short for it. */
  function Validate(data: seq<Byte>): (r: Result<bool, RangeError>)
    ensures r == Ok(true) <==> IsFrame(data)
    ensures r.Err? <==> |data| < 4 || (ClaimsModbus(data) && |data| < 6)
  {
    var protocol :- ReadUInt16BE(data, 2);
    if protocol != 0 then Ok(false)
    else
      var length :- ReadUInt16BE(data, 4);
      Ok(length + 6 == |data|)
  }

  /** `buildError(data)`: a 9-byte buffer into which the first 7 request bytes
      are copied, the length field is overwritten with 3, the function code is
      written with 0x80 added, and the exception code follows. */
  function BuildError(data: seq<Byte>): (r: Result<seq<Byte>, RangeError>)
    ensures r.Ok? <==> |data| >= 8 && data[7] < ExceptionBit
    ensures |data| >= 8 && data[7] >= ExceptionBit ==> r == Err(ValueOutOfRange)
    ensures r.Ok? ==>
      && |r.value| == 9
      && r.value[..4] == data[..4]
      && r.value[4] == 0 && r.value[5] == 3
      && r.value[6] == data[6]
      && r.value[7] == data[7] + ExceptionBit
      && r.value[8] == GatewayPathUnavailable
  {
    var resp := Copy(data, Alloc(9), 7);
    // The two writes of constants cannot throw on a 9-byte buffer; the
    // failure arms below only keep the shape of the source.
    match WriteUInt16BE(resp, 0x03, 4)
    case Err(e) => Err(e)
    case Ok(resp) =>
      var code :- ReadUInt8(data, 7);
      var resp :- WriteUInt8(resp, code + ExceptionBit, 7);
      match WriteUInt8(resp, GatewayPathUnavailable, 8)
      case Err(e) => Err(e)
      case Ok(resp) => Ok(resp)
  }

  /** The reply reads only the first 8 request bytes: requests that agree on
      them get the same reply, whatever follows. */
  lemma BuildErrorReadsHeaderOnly(a: seq<Byte>, b: seq<Byte>)
    requires |a| >= 8 && |b| >= 8 && a[..8] == b[..8]
    ensures BuildError(a) == BuildError(b)
  {
    assert forall i :: 0 <= i < 8 ==> a[i] == a[..8][i] == b[..8][i] == b[i];
    if BuildError(a).Ok? {
      var ra, rb := BuildError(a).value, BuildError(b).value;
      assert forall i :: 0 <= i < 4 ==> ra[i] == ra[..4][i] == a[..4][i] == b[..4][i] == rb[..4][i] == rb[i];
      assert ra == rb;
    }
  }

  /** The reply, read back as an MBAP header, answers the request: same
      transaction id, protocol id and unit id, a length field of 3 matching its
      9 bytes, the request's function code with the exception bit set, and
      exception code 0x0A. It is a complete frame exactly when the request's
      protocol id is 0. */
  lemma BuildErrorIsExceptionReply(data: seq<Byte>)
    requires BuildError(data).Ok?
    ensures var reply := BuildError(data).value;
      && ReadUInt16BE(reply, 0) == ReadUInt16BE(data, 0)
      && ReadUInt16BE(reply, 2) == ReadUInt16BE(data, 2)
      && ReadUInt16BE(reply, 4) == Ok(|reply| - 6)
      && reply[6] == data[6]
      && reply[7] >= ExceptionBit && reply[7] % ExceptionBit == data[7]
      && reply[8] == GatewayPathUnavailable
      && (Validate(reply) == Ok(true) <==> ClaimsModbus(data))
  {
  }

  /** Request `000100000006010120000001` (read coils, unit 1) gets
      `00010000000301810a`. */
  lemma BuildErrorExample()
    ensures BuildError([0x00, 0x01, 0x00, 0x00, 0x00, 0x06, 0x01, 0x01, 0x20, 0x00, 0x00, 0x01])
         == Ok([0x00, 0x01, 0x00, 0x00, 0x00, 0x03, 0x01, 0x81, 0x0A])
  {
    var request: seq<Byte> := [0x00, 0x01, 0x00, 0x00, 0x00, 0x06, 0x01, 0x01, 0x20, 0x00, 0x00, 0x01];
    var expected: seq<Byte> := [0x00, 0x01, 0x00, 0x00, 0x00, 0x03, 0x01, 0x81, 0x0A];
    assert BuildError(request).Ok?;
    var reply := BuildError(request).value;
    assert reply[..4] == request[..4];
    assert forall i :: 0 <= i < 4 ==> reply[i] == reply[..4][i] == request[i];
    assert reply == expected;
  }
}
