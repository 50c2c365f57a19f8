/** Streaming verification of an uploaded object against what was reserved for it. */
module UploadVerification {
  import opened Wrappers
  import opened Entities
  import opened Sequences

  // The stored object as the bucket hands it out; its body arrives in non-empty chunks.
  datatype StoredObject = StoredObject(chunks: seq<seq<Byte>>, contentLength: nat, contentType: string)

  datatype VerifiedUpload = VerifiedUpload(body: seq<Byte>, byteSize: nat, mimeType: string, sha256: Digest)

  datatype Invalid = SizeMismatch | TooLarge | TypeMismatch | SignatureMismatch

  function Signature(mimeType: string): seq<Byte> {
    if mimeType == "application/pdf" then [0x25, 0x50, 0x44, 0x46, 0x2D]
    else if mimeType == "image/jpeg" then [0xFF, 0xD8, 0xFF]
    else [0x89, 0x50, 0x4E, 0x47, 0x0D, 0x0A, 0x1A, 0x0A]
  }

  predicate MatchesFileSignature(mimeType: string, prefix: seq<Byte>) {
    Signature(mimeType) <= prefix
  }

  /** The start of a body tells the accepted types apart: no body has the signatures of two of them. */
  lemma SignaturesTellTypesApart(body: seq<Byte>, one: string, other: string)
    requires one in {"application/pdf", "image/jpeg", "image/png"}
    requires other in {"application/pdf", "image/jpeg", "image/png"}
    requires MatchesFileSignature(one, body) && MatchesFileSignature(other, body)
    ensures one == other
  {
    assert body[0] == Signature(one)[0] && body[0] == Signature(other)[0];
  }

  /** The bytes a signature is looked for in. */
  function Head(body: seq<Byte>): seq<Byte> {
    if |body| < 16 then body else body[..16]
  }

  lemma HeadGrows(body: seq<Byte>, chunk: seq<Byte>)
    ensures Head(body + chunk) ==
              if |Head(body)| < 16 then Head(body) + chunk[..if |chunk| < 16 - |Head(body)| then |chunk| else 16 - |Head(body)|]
              else Head(body)
  {
  }

  lemma HeadDecides(mimeType: string, body: seq<Byte>)
    ensures MatchesFileSignature(mimeType, Head(body)) <==> MatchesFileSignature(mimeType, body)
  {
  }

  /**
   Accepts exactly the objects whose declared and actual size is the reserved one, within the limit, with the
   reserved type and its signature; and then reports size, content and hash of the very bytes read.
   */
  method VerifyUpload(stored: StoredObject, expectedByteSize: nat, expectedMimeType: string, maximumByteSize: nat)
    returns (r: Result<VerifiedUpload, Invalid>)
    requires forall i :: 0 <= i < |stored.chunks| ==> stored.chunks[i] != []
    ensures r.Ok? <==>
              && stored.contentLength == expectedByteSize <= maximumByteSize
              && stored.contentType == expectedMimeType
              && |Flat(stored.chunks)| == expectedByteSize
              && MatchesFileSignature(expectedMimeType, Flat(stored.chunks))
    ensures r.Ok? ==>
              r.value == VerifiedUpload(Flat(stored.chunks), expectedByteSize, expectedMimeType,
                                        Sha256(Flat(stored.chunks)))
  {
    if stored.contentLength != expectedByteSize {
      return Err(SizeMismatch);
    }
    if stored.contentLength > maximumByteSize {
      return Err(TooLarge);
    }
    if stored.contentType != expectedMimeType {
      return Err(TypeMismatch);
    }
    var byteSize, prefix, body := 0, [], [];
    var digested: seq<Byte> := [];
    var i := 0;
    while i < |stored.chunks|
      invariant 0 <= i <= |stored.chunks|
      invariant body == Flat(stored.chunks[..i]) == digested
      invariant byteSize == |body| <= expectedByteSize
      invariant prefix == Head(body)
    {
      var chunk := stored.chunks[i];
      FlatNext(stored.chunks, i);
      HeadGrows(body, chunk);
      FlatGrows(stored.chunks, i + 1);
      byteSize := byteSize + |chunk|;
      if byteSize > expectedByteSize || byteSize > maximumByteSize {
        return Err(TooLarge);
      }
      if |prefix| < 16 {
        prefix := prefix + chunk[..if |chunk| < 16 - |prefix| then |chunk| else 16 - |prefix|];
      }
      digested := digested + chunk;
      body := body + chunk;
      i := i + 1;
    }
    assert stored.chunks[..i] == stored.chunks;
    if byteSize != expectedByteSize {
      return Err(SizeMismatch);
    }
    HeadDecides(expectedMimeType, body);
    if !MatchesFileSignature(expectedMimeType, prefix) {
      return Err(SignatureMismatch);
    }
    return Ok(VerifiedUpload(body, byteSize, expectedMimeType, Sha256(digested)));
  }
}
