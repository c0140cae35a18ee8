/** The stores as the server runs them: objects whose methods change tables and blobs in
    place. Each method is proved to do, when nothing interferes, exactly the steps the
    protocol interleaves. */
module Stores {
  import opened Records
  import opened Sql
  import opened Protocol
  import opened Solo

  datatype Result<+T> = Ok(value: T) | Err(error: Error)

  datatype SendRecord = SendRecord(id: string, oneTime: bool, expiresAt: int, parts: seq<PartMeta>)

  datatype RedeemGrant = RedeemGrant(token: string, expiresAt: int, parts: map<string, int>)

  /** The statements of a call, run one after the other, with no loop over blobs. */
  predicate Alone(cfg: Config, sh: Shared, call: Call, sh': Shared, reply: Reply, steps: nat)
    decreases steps
  {
    if call.Done? then sh'.db == sh.db && sh'.blobs == sh.blobs && reply == call.reply
    else steps > 0 && Ready(call, "") &&
         var n := Exec(cfg, sh, 0, call, ""); Alone(cfg, n.sh, n.call, sh', reply, steps - 1)
  }

  function ReplyTo(r: Result<RedeemGrant>): Reply {
    match r
    case Ok(g) => Granted(g.token, g.expiresAt, g.parts)
    case Err(e) => Failed(e)
  }

  /** The tables and the reply after a redemption that nothing interrupts. */
  function Redeemed(cfg: Config, db: Db, id: string, token: string, now: int): (Db, Reply) {
    if id !in db.sends then (db, Failed(ErrNotFound))
    else if !db.sends[id].status.Finalized? then (db, Failed(ErrNotFinalized))
    else if db.sends[id].expiresAt <= Unix(now) then (db, Failed(ErrExpired))
    else if db.sends[id].oneTime && !ConsumeMatches(db, id, now) then (db, Failed(ErrAlreadyRedeemed))
    else
      var consumed := if db.sends[id].oneTime then ConsumeUpdate(db, id, now) else db;
      match InsertGrant(consumed, cfg.tokenSha(token), NewGrantRow(id, now, cfg.grantTtl))
      case None => (consumed, Failed(ErrStorage))
      case Some(d) => (d, Granted(token, now + cfg.grantTtl, PartsBrief(d, id)))
  }

  /** It is what the steps of the protocol do when no other call interferes. */
  lemma RedeemAlone(cfg: Config, sh: Shared, sh': Shared, id: string, token: string, now: int)
    requires sh'.blobs == sh.blobs && sh'.db == Redeemed(cfg, sh.db, id, token, now).0
    ensures Alone(cfg, sh, RedLoad(id, token, now), sh', Redeemed(cfg, sh.db, id, token, now).1, 4)
  {
    hide Alone;
    var reply, call := Redeemed(cfg, sh.db, id, token, now).1, RedLoad(id, token, now);
    var n1 := ExecRedeem(cfg, sh, 0, call);
    if n1.call.Done? {
      AloneDone(cfg, n1, sh', reply, 3);
    } else if n1.call.RedConsume? {
      ConsumeAlone(cfg, sh, sh', id, token, now);
    } else {
      InsertAlone(cfg, sh, sh', id, token, now);
    }
    AloneStep(cfg, sh, call, n1, sh', reply, 4);
  }

  lemma ConsumeAlone(cfg: Config, sh: Shared, sh': Shared, id: string, token: string, now: int)
    requires id in sh.db.sends && sh.db.sends[id].status.Finalized? && sh.db.sends[id].oneTime
        && sh.db.sends[id].expiresAt > Unix(now)
    requires sh'.blobs == sh.blobs && sh'.db == Redeemed(cfg, sh.db, id, token, now).0
    ensures Alone(cfg, sh, RedConsume(id, token, now), sh', Redeemed(cfg, sh.db, id, token, now).1, 3)
  {
    hide Alone, InsertGrant, ConsumeUpdate, NewGrantRow, PartsBrief;
    var reply, call := Redeemed(cfg, sh.db, id, token, now).1, RedConsume(id, token, now);
    var n := ExecRedeem(cfg, sh, 0, call);
    if n.call.Done? {
      AloneDone(cfg, n, sh', reply, 2);
    } else {
      InsertAlone(cfg, n.sh, sh', id, token, now);
    }
    AloneStep(cfg, sh, call, n, sh', reply, 3);
  }

  lemma InsertAlone(cfg: Config, sh: Shared, sh': Shared, id: string, token: string, now: int)
    requires sh'.blobs == sh.blobs
    requires match InsertGrant(sh.db, cfg.tokenSha(token), NewGrantRow(id, now, cfg.grantTtl))
             case None => sh'.db == sh.db
             case Some(d) => sh'.db == d
    ensures var reply := match InsertGrant(sh.db, cfg.tokenSha(token), NewGrantRow(id, now, cfg.grantTtl))
                         case None => Failed(ErrStorage)
                         case Some(d) => Granted(token, now + cfg.grantTtl, PartsBrief(d, id));
            Alone(cfg, sh, RedInsert(id, token, now), sh', reply, 2)
            && Alone(cfg, sh, RedInsert(id, token, now), sh', reply, 3)
  {
    hide Alone;
    var reply := match InsertGrant(sh.db, cfg.tokenSha(token), NewGrantRow(id, now, cfg.grantTtl))
                 case None => Failed(ErrStorage)
                 case Some(d) => Granted(token, now + cfg.grantTtl, PartsBrief(d, id));
    var call := RedInsert(id, token, now);
    var n := ExecRedeem(cfg, sh, 0, call);
    if n.call.Done? {
      AloneDone(cfg, n, sh', reply, 1);
      AloneDone(cfg, n, sh', reply, 2);
    } else {
      var m := ExecRedeem(cfg, n.sh, 0, n.call);
      AloneDone(cfg, m, sh', reply, 0);
      AloneDone(cfg, m, sh', reply, 1);
      AloneStep(cfg, n.sh, n.call, m, sh', reply, 1);
      AloneStep(cfg, n.sh, n.call, m, sh', reply, 2);
    }
    AloneStep(cfg, sh, call, n, sh', reply, 2);
    AloneStep(cfg, sh, call, n, sh', reply, 3);
  }

  lemma AloneDone(cfg: Config, n: Next, sh': Shared, reply: Reply, steps: nat)
    requires n.call == Done(reply) && sh'.db == n.sh.db && sh'.blobs == n.sh.blobs
    ensures Alone(cfg, n.sh, n.call, sh', reply, steps)
  {
  }

  lemma AloneStep(cfg: Config, sh: Shared, call: Call, n: Next, sh': Shared, reply: Reply, steps: nat)
    requires steps > 0 && Ready(call, "") && n == Exec(cfg, sh, 0, call, "")
    requires Alone(cfg, n.sh, n.call, sh', reply, steps - 1)
    ensures Alone(cfg, sh, call, sh', reply, steps)
  {
    hide Exec;
  }

  class SQLiteState {
    var db: Db
    const cfg: Config
    var clock: int  // what the injected clock returns

    constructor (cfg: Config, clock: int)
      ensures this.cfg == cfg && this.clock == clock && db == EMPTY_DB
    {
      this.cfg, this.clock := cfg, clock;
      db := EMPTY_DB;
    }

    /** The new id is a parameter. Either the whole transaction commits, or it rolls back
        and nothing has changed. */
    method CreateSend(id: string, input: CreateInput) returns (r: Result<SendRecord>)
      modifies this`db
      ensures r.Err? ==> r == Err(ErrStorage) && db == old(db)
      ensures r.Ok? ==> r.value == SendRecord(id, input.oneTime, clock + input.ttl, input.parts)
      ensures r.Ok? ==>
                && id !in old(db).sends && DistinctIds(input.parts)
                && db.sends == old(db).sends[id :=
                     SendRow(Creating, input.oneTime, clock / 1_000_000_000, None,
                             (clock + input.ttl) / 1_000_000_000, None,
                             Wrap64(TotalSize(input.parts)), |input.parts|)]
                && db.grants == old(db).grants
                && (forall k :: k in db.parts <==>
                      k in old(db).parts || (k.0 == id && exists m :: m in input.parts && m.partId == k.1))
                && (forall k :: k in old(db).parts ==> db.parts[k] == old(db).parts[k])
                && (forall m :: m in input.parts ==>
                      db.parts[(id, m.partId)] == PartRow(id + "/" + m.partId, m.encryptedSize, m.sha256, None))
      ensures id !in old(db).sends && DistinctIds(input.parts) && (forall p :: (id, p) !in old(db).parts) ==> r.Ok?
      ensures CreateTransaction(old(db), id, input, clock).None? ==> r == Err(ErrStorage) && db == old(db)
      ensures CreateTransaction(old(db), id, input, clock).Some? ==>
                && db == CreateTransaction(old(db), id, input, clock).value
                && r == Ok(SendRecord(id, input.oneTime, clock + input.ttl, input.parts))
    {
      hide Wrap64, TotalSize, InsertPart, InsertSend, InsertParts, DistinctIds;
      var now := clock;
      CreatedTables(db, id, input, now);
      var total := 0;
      StartOf(db, id, input.parts);
      for i := 0 to |input.parts|
        invariant db == old(db) && total == Wrap64(TotalSize(input.parts[..i]))
      {
        TotalStep(input.parts, i);
        total := Wrap64(total + input.parts[i].encryptedSize);
      }
      assert input.parts[..|input.parts|] == input.parts;
      var row := SendRow(Creating, input.oneTime, Unix(now), None, Unix(now + input.ttl), None, total, |input.parts|);
      assert row == NewSendRow(input, now);
      var saved := db;
      match InsertSend(db, id, row)
      case None => return Err(ErrStorage);
      case Some(d) => db := d;
      ghost var start := db;
      StartOf(start, id, input.parts);
      for i := 0 to |input.parts|
        invariant InsertParts(start, id, input.parts[..i]) == Some(db)
      {
        InsertStep(start, id, input.parts, i);
        match InsertPart(db, id, input.parts[i])
        case None =>
          db := saved;
          InsertPartsStops(start, id, input.parts, i);
          return Err(ErrStorage);
        case Some(d) => db := d;
      }
      assert input.parts[..|input.parts|] == input.parts;
      r := Ok(SendRecord(id, input.oneTime, now + input.ttl, input.parts));
    }

    method SendStatusOf(id: string) returns (r: Result<Status>)
      ensures r == if id in db.sends then Ok(db.sends[id].status) else Err(ErrNotFound)
    {
      if id !in db.sends { return Err(ErrNotFound); }
      r := Ok(db.sends[id].status);
    }

    method DeclaredPart(id: string, partId: string) returns (r: Result<(PartMeta, bool)>)
      ensures (id, partId) !in db.parts ==> r == Err(ErrUnknownPart)
      ensures (id, partId) in db.parts ==>
                var row := db.parts[(id, partId)];
                r == Ok((PartMeta(partId, row.encryptedSize, row.sha256), row.uploadedAt.Some?))
    {
      if (id, partId) !in db.parts { return Err(ErrUnknownPart); }
      var row := db.parts[(id, partId)];
      r := Ok((PartMeta(partId, row.encryptedSize, row.sha256), row.uploadedAt.Some?));
    }

    method MarkUploaded(id: string, partId: string)
      modifies this`db
      ensures db == Sql.MarkUploaded(old(db), id, partId, clock)
      ensures db.sends == old(db).sends && db.grants == old(db).grants && db.parts.Keys == old(db).parts.Keys
      ensures forall k :: k in db.parts ==>
                db.parts[k] == if k == (id, partId) then old(db).parts[k].(uploadedAt := Some(clock / 1_000_000_000))
                               else old(db).parts[k]
    {
      if (id, partId) in db.parts {
        var row := db.parts[(id, partId)];
        db := db.(parts := db.parts[(id, partId) := row.(uploadedAt := Some(Unix(clock)))]);
      }
    }

    /** Succeeds exactly when the send is finalized already, or is being created and has
        no missing part; then it is finalized. Every refusal leaves the tables alone. */
    method FinalizeSend(id: string) returns (r: Result<()>)
      modifies this`db
      ensures id !in old(db).sends ==> r == Err(ErrNotFound) && db == old(db)
      ensures id in old(db).sends ==>
                match old(db).sends[id].status
                case Finalized => r == Ok(()) && db == old(db)
                case Creating =>
                  if exists p :: (id, p) in old(db).parts && old(db).parts[(id, p)].uploadedAt.None?
                  then r == Err(ErrIncomplete) && db == old(db)
                  else
                    && r == Ok(())
                    && db == old(db).(sends := old(db).sends[id :=
                         old(db).sends[id].(status := Finalized, finalizedAt := Some(clock / 1_000_000_000))])
                case _ => r == Err(ErrConflict) && db == old(db)
      ensures forall sh: Shared, sh': Shared {:trigger sh.db, sh'.db} ::
                sh.db == old(db) && sh.clock == clock && sh'.db == db && sh'.blobs == sh.blobs ==>
                  Alone(cfg, sh, FinStatus(id), sh', if r.Ok? then FinalizedOk else Failed(r.error), 3)
    {
      var status := SendStatusOf(id);
      match status {
        case Err(e) => return Err(e);
        case Ok(s) =>
          if s.Finalized? { return Ok(()); }
          if !s.Creating? { return Err(ErrConflict); }
      }
      MissingMeans(db, id);
      if |Missing(db, id)| > 0 { return Err(ErrIncomplete); }
      if !FinalizeMatches(db, id) { return Err(ErrConflict); }
      var row := db.sends[id];
      db := db.(sends := db.sends[id := row.(status := Finalized, finalizedAt := Some(Unix(clock)))]);
      r := Ok(());
    }

    /** The fresh token is a parameter. A one-time send is granted only if nobody has
        consumed it, and is consumed then. The grant and the reply are spelled out. */
    method RedeemSend(id: string, token: string) returns (r: Result<RedeemGrant>)
      modifies this`db
      ensures id !in old(db).sends ==> r == Err(ErrNotFound) && db == old(db)
      ensures id in old(db).sends ==>
                var row, now, hash := old(db).sends[id], clock / 1_000_000_000, cfg.tokenSha(token);
                if !row.status.Finalized? then r == Err(ErrNotFinalized) && db == old(db)
                else if row.expiresAt <= now then r == Err(ErrExpired) && db == old(db)
                else if row.oneTime && row.consumedAt.Some? then r == Err(ErrAlreadyRedeemed) && db == old(db)
                else
                  && db.sends == old(db).sends[id := if row.oneTime then row.(consumedAt := Some(now)) else row]
                  && db.parts == old(db).parts
                  && if hash in old(db).grants then r == Err(ErrStorage) && db.grants == old(db).grants
                     else
                       && r.Ok? && r.value.token == token && r.value.expiresAt == clock + cfg.grantTtl
                       && db.grants == old(db).grants[hash :=
                            GrantRow(id, now, (clock + cfg.grantTtl) / 1_000_000_000)]
                       && (forall p :: p in r.value.parts <==> (id, p) in old(db).parts)
                       && (forall p :: p in r.value.parts ==>
                             r.value.parts[p] == old(db).parts[(id, p)].encryptedSize)
      ensures (db, ReplyTo(r)) == Redeemed(cfg, old(db), id, token, clock)
    {
      var now := clock;
      if id !in db.sends { return Err(ErrNotFound); }
      var row := db.sends[id];
      if !row.status.Finalized? { return Err(ErrNotFinalized); }
      if row.expiresAt <= Unix(now) { return Err(ErrExpired); }
      if row.oneTime {
        if !ConsumeMatches(db, id, now) { return Err(ErrAlreadyRedeemed); }
        db := db.(sends := db.sends[id := row.(consumedAt := Some(Unix(now)))]);
      }
      var grantExp := now + cfg.grantTtl;
      match InsertGrant(db, cfg.tokenSha(token), GrantRow(id, Unix(now), Unix(grantExp)))
      case None => return Err(ErrStorage);
      case Some(d) => db := d;
      BriefMeans(db, id);
      r := Ok(RedeemGrant(token, grantExp, PartsBrief(db, id)));
    }

    method ValidateGrant(id: string, hash: string) returns (ok: bool)
      ensures ok <==> GrantAccepted(db, id, hash, clock)
      ensures ok <==> hash in db.grants && db.grants[hash].sendId == id
                      && clock / 1_000_000_000 < db.grants[hash].expiresAt
    {
      if hash !in db.grants || db.grants[hash].sendId != id { return false; }
      if db.grants[hash].expiresAt <= Unix(clock) { return false; }
      ok := true;
    }

    /** The reaped sends and their keys; the rows and what depends on them are gone. */
    method DeleteExpired(now: int) returns (sends: int, keys: seq<string>)
      modifies this`db
      ensures Kept(cfg.grantTtl, old(db), now, db) && sends == |old(db).sends| - |db.sends|
      ensures forall key :: key in keys <==> Dropped(old(db), db, key)
      ensures db == ReapedDb(cfg, old(db), now)
      ensures sends == |ReapedIds(cfg, old(db), now)|
      ensures (set k | k in keys) == KeysOf(old(db), ReapedIds(cfg, old(db), now))
    {
      ReapKeeps(cfg, db, now);
      hide Kept, Dropped;
      var ids: seq<string> := [];
      var rows := db.sends.Keys;
      while rows != {}
        invariant rows <= db.sends.Keys
        invariant forall i, j :: 0 <= i < j < |ids| ==> ids[i] != ids[j]
        invariant forall id :: id in ids <==> id in db.sends && id !in rows && Reapable(db.sends[id], now, cfg.grantTtl)
      {
        var id :| id in rows;
        if Reapable(db.sends[id], now, cfg.grantTtl) { ids := ids + [id]; }
        rows := rows - {id};
      }
      var picked := set id | id in ids;
      assert picked == ReapedIds(cfg, db, now);
      DistinctCount(ids);
      if |ids| == 0 {
        NothingReaped(cfg, Shared(db, map[], 0, NO_HISTORY), now);
        return 0, [];
      }
      keys := KeysFor(picked);
      db := DeleteSends(db, picked);
      sends := |ids|;
    }

    method KeysFor(ids: set<string>) returns (keys: seq<string>)
      ensures (set k | k in keys) == KeysOf(db, ids)
    {
      keys := [];
      var rows := db.parts.Keys;
      while rows != {}
        invariant rows <= db.parts.Keys
        invariant forall key :: key in keys <==>
                    exists k :: k in db.parts && k !in rows && k.0 in ids && db.parts[k].storageKey == key
      {
        var k :| k in rows;
        if k.0 in ids { keys := keys + [db.parts[k].storageKey]; }
        rows := rows - {k};
      }
    }

    method LiveStorageKeys() returns (keys: seq<string>)
      ensures (set k | k in keys) == LiveKeys(db)
      ensures forall key :: key in keys <==> exists k :: k in db.parts && db.parts[k].storageKey == key
    {
      keys := [];
      var rows := db.parts.Keys;
      while rows != {}
        invariant rows <= db.parts.Keys
        invariant forall key :: key in keys <==>
                    exists k :: k in db.parts && k !in rows && db.parts[k].storageKey == key
      {
        var k :| k in rows;
        keys := keys + [db.parts[k].storageKey];
        rows := rows - {k};
      }
    }
  }

  lemma StartOf(db: Db, id: string, parts: seq<PartMeta>)
    ensures Wrap64(TotalSize(parts[..0])) == 0 && InsertParts(db, id, parts[..0]) == Some(db)
  {
  }

  lemma TotalStep(parts: seq<PartMeta>, i: nat)
    requires i < |parts|
    ensures Wrap64(TotalSize(parts[..i + 1])) == Wrap64(Wrap64(TotalSize(parts[..i])) + parts[i].encryptedSize)
  {
    assert parts[..i + 1][..i] == parts[..i];
  }

  lemma InsertStep(db: Db, id: string, parts: seq<PartMeta>, i: nat)
    requires i < |parts|
    ensures InsertParts(db, id, parts[..i + 1]) ==
              match InsertParts(db, id, parts[..i]) case None => None case Some(d) => InsertPart(d, id, parts[i])
  {
    assert parts[..i + 1][..i] == parts[..i];
    hide InsertPart;
  }

  /** Once one insertion fails, the transaction fails. */
  lemma {:induction false} InsertPartsStops(db: Db, id: string, parts: seq<PartMeta>, i: nat)
    requires i < |parts| && InsertParts(db, id, parts[..i + 1]).None?
    ensures InsertParts(db, id, parts).None?
    decreases |parts|
  {
    if |parts| == i + 1 {
      assert parts[..i + 1] == parts;
    } else {
      assert parts[..|parts| - 1][..i + 1] == parts[..i + 1];
      InsertPartsStops(db, id, parts[..|parts| - 1], i);
    }
  }

  lemma {:induction false} DistinctCount(ids: seq<string>)
    requires forall i, j :: 0 <= i < j < |ids| ==> ids[i] != ids[j]
    ensures |set id | id in ids| == |ids|
  {
    if |ids| == 0 {
      assert (set id | id in ids) == {};
    } else {
      var init, last := ids[..|ids| - 1], ids[|ids| - 1];
      DistinctCount(init);
      assert (set id | id in ids) == (set id | id in init) + {last};
      assert last !in init;
    }
  }
}
