/**
 The PNG signature test the upload handler applies before optimizing. The
 signature is the fixed 8-byte prefix of every PNG file (section 5.2 of the
 PNG specification).
 */
module Png {
  import opened Wrappers

  const Signature: seq<byte> := [0x89, 0x50, 0x4E, 0x47, 0x0D, 0x0A, 0x1A, 0x0A]

  /**
   The handler's test, as written: it compares the slice `bytes[0..8]` with the
   signature, and that slice only exists when the buffer has 8 bytes or more
   (a shorter one makes the handler panic).
   */
  predicate HeaderMismatch(bytes: seq<byte>)
    requires |bytes| >= 8
  {
    bytes[0..8] != Signature
  }

  /** Reference definition: byte by byte, the buffer starts with the signature. */
  predicate HasSignature(bytes: seq<byte>)
  {
    |bytes| >= 8 && forall i :: 0 <= i < 8 ==> bytes[i] == Signature[i]
  }

  /** On every buffer it is defined for, the slice test rejects exactly the buffers without the signature. */
  lemma MismatchIffNoSignature(bytes: seq<byte>)
    requires |bytes| >= 8
    ensures HeaderMismatch(bytes) <==> !HasSignature(bytes)
  {
  }

  /** Only the first 8 bytes matter: whatever follows them never changes the verdict. */
  lemma MismatchIgnoresTail(head: seq<byte>, tail: seq<byte>)
    requires |head| == 8
    ensures HeaderMismatch(head + tail) <==> head != Signature
  {
  }
}
