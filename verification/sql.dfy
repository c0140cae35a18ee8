/** The database of the state store: three tables and one function for each SQL
    statement that is run against them. A statement is atomic. */
module Sql {
  import opened Records

  datatype SendRow = SendRow(
    status: Status, oneTime: bool, createdAt: int, finalizedAt: Option<int>, expiresAt: int,
    consumedAt: Option<int>, totalEncryptedSize: int, partCount: int)

  datatype PartRow = PartRow(storageKey: string, encryptedSize: int, sha256: string, uploadedAt: Option<int>)

  datatype GrantRow = GrantRow(sendId: string, createdAt: int, expiresAt: int)

  type PartKey = (string, string)

  /** sends by id, send_parts by (send_id, part_id), redeem_grants by token_hash. */
  datatype Db = Db(sends: map<string, SendRow>, parts: map<PartKey, PartRow>, grants: map<string, GrantRow>)

  const EMPTY_DB := Db(map[], map[], map[])

  const CREATING_MAX_AGE := 15 * MINUTE

  // ---------------------------------------------------------------- CreateSend

  function NewSendRow(input: CreateInput, now: int): SendRow {
    SendRow(Creating, input.oneTime, Unix(now), None, Unix(now + input.ttl), None,
            Wrap64(TotalSize(input.parts)), |input.parts|)
  }

  function NewPartRow(id: string, p: PartMeta): PartRow {
    PartRow(StorageKey(id, p.partId), p.encryptedSize, p.sha256, None)
  }

  /** INSERT INTO sends. */
  function InsertSend(db: Db, id: string, row: SendRow): Option<Db> {
    if id in db.sends then None else Some(db.(sends := db.sends[id := row]))
  }

  /** INSERT INTO send_parts: the primary key and the foreign key are enforced. */
  function InsertPart(db: Db, id: string, p: PartMeta): Option<Db> {
    if (id, p.partId) in db.parts || id !in db.sends then None
    else Some(db.(parts := db.parts[(id, p.partId) := NewPartRow(id, p)]))
  }

  function InsertParts(db: Db, id: string, parts: seq<PartMeta>): Option<Db> {
    if |parts| == 0 then Some(db)
    else match InsertParts(db, id, parts[..|parts| - 1])
      case None => None
      case Some(d) => InsertPart(d, id, parts[|parts| - 1])
  }

  /** The whole transaction; None is a rollback. */
  function CreateTransaction(db: Db, id: string, input: CreateInput, now: int): Option<Db> {
    match InsertSend(db, id, NewSendRow(input, now))
    case None => None
    case Some(d) => InsertParts(d, id, input.parts)
  }

  /** `d` is `db` with one new, unmarked row for each declaration. */
  ghost predicate RowsAdded(db: Db, id: string, parts: seq<PartMeta>, d: Db) {
    && d.sends == db.sends && d.grants == db.grants
    && (forall k :: k in d.parts <==> k in db.parts || (k.0 == id && exists m :: m in parts && m.partId == k.1))
    && (forall k :: k in db.parts ==> d.parts[k] == db.parts[k])
    && (forall m :: m in parts ==> d.parts[(id, m.partId)] == NewPartRow(id, m))
  }

  /** The tables after a creating transaction that committed, and when it does. */
  lemma CreatedTables(db: Db, id: string, input: CreateInput, now: int)
    ensures CreateTransaction(db, id, input, now).Some? ==>
              && id !in db.sends && DistinctIds(input.parts)
              && RowsAdded(db.(sends := db.sends[id := NewSendRow(input, now)]), id, input.parts,
                           CreateTransaction(db, id, input, now).value)
    ensures id !in db.sends && DistinctIds(input.parts) && (forall p :: (id, p) !in db.parts) ==>
              CreateTransaction(db, id, input, now).Some?
  {
    if id !in db.sends {
      hide Wrap64, TotalSize, InsertPart, InsertParts, NewPartRow, RowsAdded;
      InsertedParts(InsertSend(db, id, NewSendRow(input, now)).value, id, input.parts);
    }
  }

  /** Insertions go through exactly when no key is taken, by an old row or an earlier
      declaration. */
  lemma {:induction false} InsertedParts(db: Db, id: string, parts: seq<PartMeta>)
    requires id in db.sends
    ensures InsertParts(db, id, parts).Some? <==>
        DistinctIds(parts) && forall m :: m in parts ==> (id, m.partId) !in db.parts
    ensures InsertParts(db, id, parts).Some? ==> RowsAdded(db, id, parts, InsertParts(db, id, parts).value)
  {
    if |parts| > 0 {
      hide NewPartRow, RowsAdded, DistinctIds;
      var init, last := parts[..|parts| - 1], parts[|parts| - 1];
      InsertedParts(db, id, init);
      LastDistinct(parts);
      if InsertParts(db, id, init).Some? {
        OneMoreRow(db, id, parts, InsertParts(db, id, init).value);
      }
    } else {
      hide NewPartRow;
    }
  }

  lemma LastDistinct(parts: seq<PartMeta>)
    requires |parts| > 0
    ensures var init, last := parts[..|parts| - 1], parts[|parts| - 1];
            && (forall m :: m in parts <==> m in init || m == last)
            && (DistinctIds(parts) <==> DistinctIds(init) && forall m :: m in init ==> m.partId != last.partId)
  {
    var init, last := parts[..|parts| - 1], parts[|parts| - 1];
    assert parts == init + [last];
  }

  lemma OneMoreRow(db: Db, id: string, parts: seq<PartMeta>, d: Db)
    requires |parts| > 0 && id in db.sends && RowsAdded(db, id, parts[..|parts| - 1], d)
    ensures var init, last := parts[..|parts| - 1], parts[|parts| - 1];
            && (InsertPart(d, id, last).Some? <==>
                (id, last.partId) !in db.parts && forall m :: m in init ==> m.partId != last.partId)
            && (InsertPart(d, id, last).Some? ==> RowsAdded(db, id, parts, InsertPart(d, id, last).value))
  {
    hide NewPartRow;
    LastDistinct(parts);
  }

  // ------------------------------------------------------------- MarkUploaded

  /** UPDATE send_parts SET uploaded_at. There is no test of the send's status. */
  function MarkUploaded(db: Db, id: string, partId: string, now: int): Db {
    if (id, partId) in db.parts then
      db.(parts := db.parts[(id, partId) := db.parts[(id, partId)].(uploadedAt := Some(Unix(now)))])
    else db
  }

  // ------------------------------------------------------------- FinalizeSend

  /** The rows that SELECT COUNT(*) ... WHERE uploaded_at IS NULL counts. */
  function Missing(db: Db, id: string): set<PartKey> {
    set k | k in db.parts && k.0 == id && db.parts[k].uploadedAt.None?
  }

  lemma MissingMeans(db: Db, id: string)
    ensures |Missing(db, id)| > 0 <==> exists p :: (id, p) in db.parts && db.parts[(id, p)].uploadedAt.None?
  {
    if p :| (id, p) in db.parts && db.parts[(id, p)].uploadedAt.None? {
      assert (id, p) in Missing(db, id);
    }
    if k :| k in Missing(db, id) {
      assert k == (id, k.1);
    }
  }

  predicate FinalizeMatches(db: Db, id: string) {
    id in db.sends && db.sends[id].status.Creating?
  }

  /** UPDATE sends SET status = 'finalized' ... WHERE id = ? AND status = 'creating'. */
  function FinalizeUpdate(db: Db, id: string, now: int): Db {
    if FinalizeMatches(db, id) then
      db.(sends := db.sends[id := db.sends[id].(status := Finalized, finalizedAt := Some(Unix(now)))])
    else db
  }

  // --------------------------------------------------------------- RedeemSend

  predicate ConsumeMatches(db: Db, id: string, now: int) {
    && id in db.sends
    && db.sends[id].oneTime
    && db.sends[id].consumedAt.None?
    && db.sends[id].status.Finalized?
    && db.sends[id].expiresAt > Unix(now)
  }

  /** The conditional UPDATE that consumes a one-time send. */
  function ConsumeUpdate(db: Db, id: string, now: int): Db {
    if ConsumeMatches(db, id, now) then
      db.(sends := db.sends[id := db.sends[id].(consumedAt := Some(Unix(now)))])
    else db
  }

  function NewGrantRow(id: string, now: int, grantTtl: int): GrantRow {
    GrantRow(id, Unix(now), Unix(now + grantTtl))
  }

  /** INSERT INTO redeem_grants: the primary key and the foreign key are enforced. */
  function InsertGrant(db: Db, hash: string, row: GrantRow): Option<Db> {
    if hash in db.grants || row.sendId !in db.sends then None
    else Some(db.(grants := db.grants[hash := row]))
  }

  /** SELECT part_id, encrypted_size FROM send_parts WHERE send_id = ?. */
  function PartsBrief(db: Db, id: string): map<string, int> {
    map k | k in db.parts && k.0 == id :: k.1 := db.parts[k].encryptedSize
  }

  lemma BriefMeans(db: Db, id: string)
    ensures forall p :: p in PartsBrief(db, id) <==> (id, p) in db.parts
    ensures forall p :: p in PartsBrief(db, id) ==> PartsBrief(db, id)[p] == db.parts[(id, p)].encryptedSize
  {
    forall p | (id, p) in db.parts ensures p in PartsBrief(db, id) {
      assert (id, p).0 == id && (id, p).1 == p;
    }
  }

  // ------------------------------------------------------------ ValidateGrant

  predicate GrantAccepted(db: Db, id: string, hash: string, now: int) {
    hash in db.grants && db.grants[hash].sendId == id && db.grants[hash].expiresAt > Unix(now)
  }

  // ------------------------------------------------------------ DeleteExpired

  predicate PastExpiry(row: SendRow, now: int) {
    row.expiresAt <= Unix(now)
  }

  predicate PastConsumption(row: SendRow, now: int, grantTtl: int) {
    row.oneTime && row.consumedAt.Some? && row.consumedAt.value <= Unix(now - grantTtl)
  }

  predicate StaleCreating(row: SendRow, now: int) {
    row.status.Creating? && row.createdAt <= Unix(now - CREATING_MAX_AGE)
  }

  /** The WHERE clause of the reaping SELECT. */
  predicate Reapable(row: SendRow, now: int, grantTtl: int) {
    PastExpiry(row, now) || PastConsumption(row, now, grantTtl) || StaleCreating(row, now)
  }

  /** The rows the reaping SELECT returns. */
  function SelectReapable(db: Db, now: int, grantTtl: int): map<string, SendRow> {
    map id | id in db.sends && Reapable(db.sends[id], now, grantTtl) :: db.sends[id]
  }

  /** SELECT storage_key FROM send_parts WHERE send_id IN (...). */
  function KeysOf(db: Db, ids: set<string>): set<string> {
    set k | k in db.parts && k.0 in ids :: db.parts[k].storageKey
  }

  /** SELECT storage_key FROM send_parts. */
  function LiveKeys(db: Db): set<string> {
    set k | k in db.parts :: db.parts[k].storageKey
  }

  /** DELETE FROM sends WHERE id IN (...), with both cascades. */
  function DeleteSends(db: Db, ids: set<string>): Db {
    Db(map id | id in db.sends && id !in ids :: db.sends[id],
       map k | k in db.parts && k.0 !in ids :: db.parts[k],
       map h | h in db.grants && db.grants[h].sendId !in ids :: db.grants[h])
  }
}
