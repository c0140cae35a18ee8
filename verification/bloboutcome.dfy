/** What one blob upload decides, as a function of the whole stream. */
module BlobOutcome {
  import opened Records

  /** The bytes `io.LimitReader(r, limit+1)` lets through; `limit+1` is an int64 sum. */
  function Copied(body: Bytes, limit: int): Bytes {
    var most := Wrap64(limit + 1);
    if most <= 0 then [] else if |body| <= most then body else body[..most]
  }

  datatype PutResult = Accepted(data: Bytes) | Rejected(error: Error)

  /** Size test, then the comparison with the declaration. */
  function Verify(sha: Bytes -> string, data: Bytes, want: PartMeta, limit: int): PutResult {
    if |data| > limit then Rejected(ErrPartTooLarge)
    else if |data| != want.encryptedSize || sha(data) != want.sha256 then Rejected(ErrIntegrity)
    else Accepted(data)
  }

  function PutOutcome(sha: Bytes -> string, body: Bytes, want: PartMeta, limit: int): PutResult {
    Verify(sha, Copied(body, limit), want, limit)
  }
}
