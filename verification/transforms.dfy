/**
 * The chunk transforms of the DTU encryption pipeline: zero-padding each
 * outbound chunk to the cipher's block size (`getPadding`) and trimming a
 * decrypted chunk back to the length its MBAP header declares
 * (`getModbusTrim`). Each is the body of a stream `transform` callback, so it
 * is modelled as a function from one chunk to the next.
 */
module Transforms {
  import opened Wrappers
  import opened Buffer
  import opened Frame

  /** The padding block size for the configured `dtuEncryption` mode. An
      unrecognised mode leaves it `undefined`. */
  function BlockSize(encryption: string): (r: Option<nat>)
    ensures r.Some? <==> encryption == "aes" || encryption == "des3"
    ensures encryption == "aes" ==> r == Some(32)
    ensures encryption == "des3" ==> r == Some(8)
    ensures r.Some? ==> r.value == 8 || r.value == 32
  {
    if encryption == "aes" then Some(32)
    else if encryption == "des3" then Some(8)
    else None
  }

  /** The smallest multiple of `size` that is at least `n`. */
  function RoundUp(n: nat, size: nat): (m: nat)
    requires size > 0
  {
    (n + size - 1) / size * size
  }

  /** The padding transform: a chunk whose length is not a multiple of the
      block size is copied into a zero-filled buffer of the next multiple. With
      no block size, `length % undefined` is NaN, which is falsy, so the chunk
      passes through. */
  function Pad(encryption: string, chunk: seq<Byte>): (r: seq<Byte>)
    ensures BlockSize(encryption).None? ==> r == chunk
    ensures BlockSize(encryption).Some? ==>
      var size := BlockSize(encryption).value;
      && |r| % size == 0
      && |chunk| <= |r| < |chunk| + size
      && r[..|chunk|] == chunk
      && (forall i :: |chunk| <= i < |r| ==> r[i] == 0)
  {
    match BlockSize(encryption)
    case None => chunk
    case Some(size) =>
      if |chunk| % size != 0 then
        AlignedLength(|chunk|, size);
        Copy(chunk, Alloc(|chunk| + size - |chunk| % size), |chunk|)
      else
        chunk
  }

  /** Adding what is missing to the next multiple lands on that multiple. */
  lemma AlignedLength(n: nat, size: nat)
    requires size == 8 || size == 32
    requires n % size != 0
    ensures (n + size - n % size) % size == 0
    ensures n < n + size - n % size < n + size
  {
  }

  /** The trim transform: when the protocol id reads 0 the chunk is cut to the
      size its header declares (`slice` never grows it); otherwise it passes
      through. Each header read throws on a chunk too short for it. */
  function Trim(chunk: seq<Byte>): (r: Result<seq<Byte>, RangeError>)
    ensures r.Err? <==> |chunk| < 4 || (ClaimsModbus(chunk) && |chunk| < 6)
    ensures r.Ok? && !ClaimsModbus(chunk) ==> r.value == chunk
    ensures r.Ok? && ClaimsModbus(chunk) ==>
      && |r.value| == Min(|chunk|, DeclaredSize(chunk))
      && r.value == chunk[..|r.value|]
  {
    var protocol :- ReadUInt16BE(chunk, 2);
    if protocol == 0 then
      var length :- ReadUInt16BE(chunk, 4);
      Ok(Slice(chunk, length + 6))
    else
      Ok(chunk)
  }

  /** Padding reaches exactly the next multiple of the block size. */
  lemma PadRoundsUp(encryption: string, chunk: seq<Byte>)
    requires BlockSize(encryption).Some?
    ensures |Pad(encryption, chunk)| == RoundUp(|chunk|, BlockSize(encryption).value)
  {
  }

  /** A chunk already aligned to the block size is left as it is. */
  lemma PadKeepsAligned(encryption: string, chunk: seq<Byte>)
    requires BlockSize(encryption).None? || |chunk| % BlockSize(encryption).value == 0
    ensures Pad(encryption, chunk) == chunk
  {
  }

  /** Padding twice pads once. */
  lemma PadIdempotent(encryption: string, chunk: seq<Byte>)
    ensures Pad(encryption, Pad(encryption, chunk)) == Pad(encryption, chunk)
  {
    PadKeepsAligned(encryption, Pad(encryption, chunk));
  }

  /** The code pads AES chunks to 32 bytes rather than to AES's 16-byte block;
      the result is still whole AES blocks, as `aes-128-cbc` without automatic
      padding needs. */
  lemma AesPaddingFillsCipherBlocks(chunk: seq<Byte>)
    ensures |Pad("aes", chunk)| % 16 == 0
    ensures |Pad("aes", chunk)| - |chunk| < 32
  {
  }

  /** A trimmed chunk trims to itself. */
  lemma TrimIdempotent(chunk: seq<Byte>)
    requires Trim(chunk).Ok?
    ensures Trim(Trim(chunk).value) == Trim(chunk)
  {
    var t := Trim(chunk).value;
    if ClaimsModbus(chunk) {
      assert |t| >= 6;
      assert t[2] == chunk[2] && t[3] == chunk[3] && t[4] == chunk[4] && t[5] == chunk[5];
      assert ClaimsModbus(t) && DeclaredSize(t) == DeclaredSize(chunk);
      assert Min(|t|, DeclaredSize(t)) == |t|;
      assert t[..|t|] == t;
    }
  }

  /** Trimming a chunk that holds at least the declared frame yields exactly
      that frame. */
  lemma TrimRecoversFrame(chunk: seq<Byte>)
    requires ClaimsModbus(chunk) && |chunk| >= 6 && |chunk| >= DeclaredSize(chunk)
    ensures Trim(chunk).Ok? && IsFrame(Trim(chunk).value)
  {
  }

  /** Round trip: whatever the mode, trimming a padded frame gives the frame
      back. */
  lemma TrimUndoesPad(encryption: string, frame: seq<Byte>)
    requires Validate(frame) == Ok(true)
    ensures Trim(Pad(encryption, frame)) == Ok(frame)
  {
    var padded := Pad(encryption, frame);
    assert padded[..|frame|] == frame;
    assert forall i :: 0 <= i < |frame| ==> padded[i] == padded[..|frame|][i] == frame[i];
    assert padded[2] == frame[2] && padded[3] == frame[3] && padded[4] == frame[4] && padded[5] == frame[5];
    assert DeclaredSize(padded) == |frame|;
  }

  /** With any cipher whose decryption undoes its encryption, the DTU pipeline
      (pad, encrypt, then on the far side decrypt, trim) delivers the frame
      unchanged. */
  lemma PipelineRoundTrip(encryption: string, encrypt: seq<Byte> -> seq<Byte>,
                          decrypt: seq<Byte> -> seq<Byte>, frame: seq<Byte>)
    requires forall block :: decrypt(encrypt(block)) == block
    requires Validate(frame) == Ok(true)
    ensures Trim(decrypt(encrypt(Pad(encryption, frame)))) == Ok(frame)
  {
    TrimUndoesPad(encryption, frame);
  }
}
