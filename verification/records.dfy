/** The records, statuses and errors shared by the stores, and the small pure
    functions the stores derive keys and times with. */
module Records {

  datatype Option<+T> = None | Some(value: T)

  type byte = x: int | 0 <= x < 256

  type Bytes = seq<byte>

  const SECOND := 1_000_000_000
  const MINUTE := 60 * SECOND
  const HOUR := 60 * MINUTE

  const MAX_INT64 := 0x7FFF_FFFF_FFFF_FFFF
  const TWO_64 := 0x1_0000_0000_0000_0000

  /** Go's int64 arithmetic: the representative of `x` modulo 2^64 in the signed range. */
  function Wrap64(x: int): int {
    (x + MAX_INT64 + 1) % TWO_64 - MAX_INT64 - 1
  }

  predicate IsInt64(x: int) {
    -MAX_INT64 - 1 <= x <= MAX_INT64
  }

  /** `Time.Unix()`: whole seconds, rounded down. Times and durations are nanoseconds. */
  function Unix(ns: int): int {
    ns / SECOND
  }

  datatype Status = Creating | Finalized | Expired | Deleted

  datatype Error =
    | ErrNotFound | ErrNotFinalized | ErrAlreadyRedeemed | ErrExpired | ErrIncomplete
    | ErrConflict | ErrUnknownPart | ErrIntegrity | ErrPartTooLarge | ErrInvalidGrant
    | ErrStorage

  datatype PartMeta = PartMeta(partId: string, encryptedSize: int, sha256: string)

  datatype CreateInput = CreateInput(oneTime: bool, ttl: int, parts: seq<PartMeta>)

  predicate DistinctIds(parts: seq<PartMeta>) {
    forall i, j :: 0 <= i < j < |parts| ==> parts[i].partId != parts[j].partId
  }

  function TotalSize(parts: seq<PartMeta>): int {
    if |parts| == 0 then 0
    else TotalSize(parts[..|parts| - 1]) + parts[|parts| - 1].encryptedSize
  }

  /** The declarations by part id; with distinct ids, one entry for each. */
  function ById(parts: seq<PartMeta>): map<string, PartMeta> {
    if |parts| == 0 then map[]
    else var last := parts[|parts| - 1]; ById(parts[..|parts| - 1])[last.partId := last]
  }

  lemma {:induction false} DistinctIdsStep(parts: seq<PartMeta>)
    requires |parts| > 0
    ensures var init, last := parts[..|parts| - 1], parts[|parts| - 1];
            DistinctIds(parts) <==> DistinctIds(init) && last.partId !in ById(init)
  {
    var init := parts[..|parts| - 1];
    ByIdKeys(init);
    if DistinctIds(init) && parts[|parts| - 1].partId !in ById(init) {
      forall i, j | 0 <= i < j < |parts| ensures parts[i].partId != parts[j].partId {
        assert parts[i] == init[i];
        if j < |init| { assert parts[j] == init[j]; }
      }
    }
  }

  lemma {:induction false} ByIdKeys(parts: seq<PartMeta>)
    ensures forall p :: p in ById(parts) <==> exists i :: 0 <= i < |parts| && parts[i].partId == p
  {
    if |parts| > 0 {
      var init := parts[..|parts| - 1];
      ByIdKeys(init);
      forall p ensures p in ById(parts) <==> exists i :: 0 <= i < |parts| && parts[i].partId == p {
        if p in ById(parts) && p != parts[|parts| - 1].partId {
          assert p in ById(init);
          var i :| 0 <= i < |init| && init[i].partId == p;
          assert parts[i].partId == p;
        }
        if i :| 0 <= i < |parts| && parts[i].partId == p {
          if i < |init| { assert init[i].partId == p; }
        }
      }
    }
  }

  /** The blob key of a part. */
  function StorageKey(sendId: string, partId: string): string {
    sendId + "/" + partId
  }

  predicate NoSlash(s: string) {
    '/' !in s
  }

  /** The part a storage key belongs to: the send id ends at the first slash. */
  function KeyOwner(key: string): (string, string) {
    if key == "" then ("", "")
    else if key[0] == '/' then ("", key[1..])
    else var (s, p) := KeyOwner(key[1..]); ([key[0]] + s, p)
  }

  /** Because send ids hold no slash, a storage key determines its send and its part,
      whatever the part id holds. */
  lemma {:induction false} KeyOwnerOfStorageKey(sendId: string, partId: string)
    requires NoSlash(sendId)
    ensures KeyOwner(StorageKey(sendId, partId)) == (sendId, partId)
  {
    var key := StorageKey(sendId, partId);
    if sendId == "" {
      assert key[1..] == partId;
    } else {
      assert key[1..] == StorageKey(sendId[1..], partId);
      KeyOwnerOfStorageKey(sendId[1..], partId);
      assert sendId == [sendId[0]] + sendId[1..];
    }
  }

  /** The two hash functions are left uninterpreted; the rest are the server's knobs. */
  datatype Config = Config(
    sha: Bytes -> string,        // hex SHA-256 of a byte stream
    tokenSha: string -> string,  // HashToken
    grantTtl: int,
    maxPartBytes: int)
}
