/** Calls that run without interference: what one call does from start to end, and what
    a whole sweep leaves behind. */
module Solo {
  import opened Records
  import opened Sql
  import opened Protocol
  import opened Invariants
  import opened Publication

  // ------------------------------------------------------------------ one call alone

  /** The call can take one step for each element of `picks`. */
  predicate CanFinish(cfg: Config, sh: Shared, c: CallId, call: Call, picks: seq<string>)
    decreases |picks|
  {
    if call.Done? then |picks| == 0
    else |picks| > 0 && Ready(call, picks[0]) &&
         var n := Exec(cfg, sh, c, call, picks[0]); CanFinish(cfg, n.sh, c, n.call, picks[1..])
  }

  /** The shared state and the reply when the call has run to its end, alone. */
  function Finish(cfg: Config, sh: Shared, c: CallId, call: Call, picks: seq<string>): (Shared, Reply)
    requires CanFinish(cfg, sh, c, call, picks)
    decreases |picks|
  {
    if call.Done? then (sh, call.reply)
    else var n := Exec(cfg, sh, c, call, picks[0]); Finish(cfg, n.sh, c, n.call, picks[1..])
  }

  lemma OneStep(cfg: Config, sh: Shared, c: CallId, call: Call, picks: seq<string>, n: Next)
    requires CanFinish(cfg, sh, c, call, picks) && !call.Done?
    requires Ready(call, picks[0]) ==> n == Exec(cfg, sh, c, call, picks[0])
    ensures |picks| > 0 && CanFinish(cfg, n.sh, c, n.call, picks[1..])
    ensures Finish(cfg, sh, c, call, picks) == Finish(cfg, n.sh, c, n.call, picks[1..])
  {
    hide Exec;
  }

  lemma AtEnd(cfg: Config, sh: Shared, c: CallId, reply: Reply, picks: seq<string>)
    requires CanFinish(cfg, sh, c, Done(reply), picks)
    ensures Finish(cfg, sh, c, Done(reply), picks) == (sh, reply)
  {
    hide Exec;
  }

  /** A deletion loop unlinks every key it was given, in whatever order. */
  lemma {:induction false} UnlinksAll(cfg: Config, sh: Shared, c: CallId, keys: set<string>, sends: int,
      picks: seq<string>)
    requires CanFinish(cfg, sh, c, ReapBlobs(keys, sends), picks)
    ensures Finish(cfg, sh, c, ReapBlobs(keys, sends), picks) == (sh.(blobs := sh.blobs - keys), Reaped(sends))
    decreases |picks|
  {
    var call := ReapBlobs(keys, sends);
    hide CanFinish, Finish;
    if keys == {} {
      OneStep(cfg, sh, c, call, picks, Next(sh, Done(Reaped(sends))));
      AtEnd(cfg, sh, c, Reaped(sends), picks[1..]);
      assert sh.blobs - keys == sh.blobs;
    } else {
      PickIsReady(cfg, sh, c, call, picks);
      var sh' := sh.(blobs := sh.blobs - {picks[0]});
      OneStep(cfg, sh, c, call, picks, Next(sh', ReapBlobs(keys - {picks[0]}, sends)));
      UnlinksAll(cfg, sh', c, keys - {picks[0]}, sends, picks[1..]);
      assert sh.blobs - {picks[0]} - (keys - {picks[0]}) == sh.blobs - keys;
    }
  }

  lemma {:induction false} SweepsAll(cfg: Config, sh: Shared, c: CallId, todo: set<string>, live: set<string>, n: int,
      picks: seq<string>)
    requires CanFinish(cfg, sh, c, SweepBlobs(todo, live, n), picks)
    ensures Finish(cfg, sh, c, SweepBlobs(todo, live, n), picks) == (sh.(blobs := sh.blobs - todo), Swept(n + |todo|))
    decreases |picks|
  {
    var call := SweepBlobs(todo, live, n);
    hide CanFinish, Finish;
    if todo == {} {
      OneStep(cfg, sh, c, call, picks, Next(sh, Done(Swept(n))));
      AtEnd(cfg, sh, c, Swept(n), picks[1..]);
      assert sh.blobs - todo == sh.blobs;
    } else {
      PickIsReady(cfg, sh, c, call, picks);
      var sh' := sh.(blobs := sh.blobs - {picks[0]});
      OneStep(cfg, sh, c, call, picks, Next(sh', SweepBlobs(todo - {picks[0]}, live, n + 1)));
      SweepsAll(cfg, sh', c, todo - {picks[0]}, live, n + 1, picks[1..]);
      assert sh.blobs - {picks[0]} - (todo - {picks[0]}) == sh.blobs - todo;
    }
  }

  lemma PickIsReady(cfg: Config, sh: Shared, c: CallId, call: Call, picks: seq<string>)
    requires CanFinish(cfg, sh, c, call, picks) && !call.Done?
    ensures |picks| > 0 && Ready(call, picks[0])
  {
    hide Exec;
  }

  // ------------------------------------------------------------------- a whole sweep

  function ReapedIds(cfg: Config, db: Db, now: int): set<string> {
    SelectReapable(db, now, cfg.grantTtl).Keys
  }

  function ReapedDb(cfg: Config, db: Db, now: int): Db {
    DeleteSends(db, ReapedIds(cfg, db, now))
  }

  function ReapedBlobs(cfg: Config, db: Db, blobs: map<string, Bytes>, now: int): map<string, Bytes> {
    blobs - KeysOf(db, ReapedIds(cfg, db, now))
  }

  function LiveBlobs(db: Db, blobs: map<string, Bytes>): map<string, Bytes> {
    map k | k in blobs && k in LiveKeys(db) :: blobs[k]
  }

  /** DeleteExpired alone, whatever the order in which it unlinks. */
  lemma ReapAlone(cfg: Config, sh: Shared, c: CallId, now: int, picks: seq<string>)
    requires CanFinish(cfg, sh, c, ReapSelect(now), picks)
    ensures Finish(cfg, sh, c, ReapSelect(now), picks) ==
              (sh.(db := ReapedDb(cfg, sh.db, now), blobs := ReapedBlobs(cfg, sh.db, sh.blobs, now)),
               Reaped(|ReapedIds(cfg, sh.db, now)|))
  {
    hide CanFinish, Finish, Exec, SelectReapable, KeysOf, DeleteSends;
    var picked := SelectReapable(sh.db, now, cfg.grantTtl);
    assert |picked| == |picked.Keys|;
    PickIsReady(cfg, sh, c, ReapSelect(now), picks);
    ReapNexts(cfg, sh, c, now, picked, picks[0]);
    if |picked| == 0 {
      OneStep(cfg, sh, c, ReapSelect(now), picks, Next(sh, Done(Reaped(0))));
      AtEnd(cfg, sh, c, Reaped(0), picks[1..]);
      NothingReaped(cfg, sh, now);
    } else {
      var keys, sh' := KeysOf(sh.db, picked.Keys), sh.(db := DeleteSends(sh.db, picked.Keys));
      OneStep(cfg, sh, c, ReapSelect(now), picks, Next(sh, ReapKeys(now, picked)));
      PickIsReady(cfg, sh, c, ReapKeys(now, picked), picks[1..]);
      ReapNexts(cfg, sh, c, now, picked, picks[1..][0]);
      OneStep(cfg, sh, c, ReapKeys(now, picked), picks[1..], Next(sh, ReapDelete(now, picked, keys)));
      PickIsReady(cfg, sh, c, ReapDelete(now, picked, keys), picks[1..][1..]);
      ReapNexts(cfg, sh, c, now, picked, picks[1..][1..][0]);
      OneStep(cfg, sh, c, ReapDelete(now, picked, keys), picks[1..][1..], Next(sh', ReapBlobs(keys, |picked|)));
      UnlinksAll(cfg, sh', c, keys, |picked|, picks[1..][1..][1..]);
    }
  }

  lemma ReapNexts(cfg: Config, sh: Shared, c: CallId, now: int, picked: map<string, SendRow>, pick: string)
    requires picked == SelectReapable(sh.db, now, cfg.grantTtl)
    ensures Exec(cfg, sh, c, ReapSelect(now), pick) ==
              if |picked| == 0 then Next(sh, Done(Reaped(0))) else Next(sh, ReapKeys(now, picked))
    ensures Exec(cfg, sh, c, ReapKeys(now, picked), pick) ==
              Next(sh, ReapDelete(now, picked, KeysOf(sh.db, picked.Keys)))
    ensures Exec(cfg, sh, c, ReapDelete(now, picked, KeysOf(sh.db, picked.Keys)), pick) ==
              Next(sh.(db := DeleteSends(sh.db, picked.Keys)), ReapBlobs(KeysOf(sh.db, picked.Keys), |picked|))
  {
    hide SelectReapable, KeysOf, DeleteSends;
  }

  lemma NothingReaped(cfg: Config, sh: Shared, now: int)
    requires |SelectReapable(sh.db, now, cfg.grantTtl)| == 0
    ensures ReapedIds(cfg, sh.db, now) == {}
    ensures ReapedDb(cfg, sh.db, now) == sh.db && ReapedBlobs(cfg, sh.db, sh.blobs, now) == sh.blobs
  {
    assert KeysOf(sh.db, ReapedIds(cfg, sh.db, now)) == {};
  }

  /** OrphanSweep alone, whatever the order in which it unlinks. */
  lemma SweepAlone(cfg: Config, sh: Shared, c: CallId, picks: seq<string>)
    requires CanFinish(cfg, sh, c, SweepLive, picks)
    ensures Finish(cfg, sh, c, SweepLive, picks) ==
              (sh.(blobs := LiveBlobs(sh.db, sh.blobs)), Swept(|sh.blobs.Keys - LiveKeys(sh.db)|))
  {
    hide CanFinish, Finish, LiveKeys, LiveBlobs;
    var live := LiveKeys(sh.db);
    var todo := sh.blobs.Keys - live;
    OneStep(cfg, sh, c, SweepLive, picks, Next(sh, SweepList(live)));
    OneStep(cfg, sh, c, SweepList(live), picks[1..], Next(sh, SweepBlobs(todo, live, 0)));
    SweepsAll(cfg, sh, c, todo, live, 0, picks[1..][1..]);
    OrphansRemoved(sh.db, sh.blobs);
  }

  lemma OrphansRemoved(db: Db, blobs: map<string, Bytes>)
    ensures blobs - (blobs.Keys - LiveKeys(db)) == LiveBlobs(db, blobs)
  {
  }

  // -------------------------------------------------------------------- convergence

  /** At `now` the send has not expired, is not a one-time send consumed a grant TTL ago or
      more, and is not an upload begun 900 seconds ago or more. */
  predicate Outlives(row: SendRow, now: int, grantTtl: int) {
    && now / 1_000_000_000 < row.expiresAt
    && (row.oneTime && row.consumedAt.Some? ==> (now - grantTtl) / 1_000_000_000 < row.consumedAt.value)
    && (row.status.Creating? ==> now / 1_000_000_000 - 900 < row.createdAt)
  }

  /** `d` has exactly the sends of `db` that outlive `now`, and the parts and grants that
      do not belong to another send of `db`. */
  ghost predicate Kept(grantTtl: int, db: Db, now: int, d: Db) {
    && (forall id :: id in d.sends <==> id in db.sends && Outlives(db.sends[id], now, grantTtl))
    && (forall id :: id in d.sends ==> d.sends[id] == db.sends[id])
    && (forall k :: k in d.parts <==> k in db.parts && (k.0 in db.sends ==> k.0 in d.sends))
    && (forall k :: k in d.parts ==> d.parts[k] == db.parts[k])
    && (forall h :: h in d.grants <==>
          h in db.grants && (db.grants[h].sendId in db.sends ==> db.grants[h].sendId in d.sends))
    && (forall h :: h in d.grants ==> d.grants[h] == db.grants[h])
  }

  /** The key of a part of a send that is gone from `d`. */
  ghost predicate Dropped(db: Db, d: Db, key: string) {
    exists k :: k in db.parts && db.parts[k].storageKey == key && k.0 in db.sends && k.0 !in d.sends
  }

  lemma ReapedIffOutlived(cfg: Config, db: Db, now: int, id: string)
    ensures id in ReapedIds(cfg, db, now) <==> id in db.sends && !Outlives(db.sends[id], now, cfg.grantTtl)
  {
    assert Unix(now - CREATING_MAX_AGE) == now / 1_000_000_000 - 900;
  }

  /** Reaping at `now` keeps a send exactly when it has not expired, is not a one-time send
      consumed a grant TTL ago or more, and is not an upload begun 900 seconds ago or more;
      with the sends go their parts and grants, and nothing else changes. */
  lemma ReapKeeps(cfg: Config, db: Db, now: int)
    ensures Kept(cfg.grantTtl, db, now, ReapedDb(cfg, db, now))
    ensures |ReapedIds(cfg, db, now)| == |db.sends| - |ReapedDb(cfg, db, now).sends|
    ensures forall key :: key in KeysOf(db, ReapedIds(cfg, db, now)) <==> Dropped(db, ReapedDb(cfg, db, now), key)
  {
    var ids := ReapedIds(cfg, db, now);
    forall id ensures id in ids <==> id in db.sends && !Outlives(db.sends[id], now, cfg.grantTtl) {
      ReapedIffOutlived(cfg, db, now, id);
    }
    hide Outlives, ReapedIds;
    DeletionKeeps(cfg.grantTtl, db, now, ids);
    DeletionCounts(db, ids);
    DeletionDrops(db, ids);
  }

  lemma DeletionKeeps(grantTtl: int, db: Db, now: int, ids: set<string>)
    requires forall id :: id in ids <==> id in db.sends && !Outlives(db.sends[id], now, grantTtl)
    ensures Kept(grantTtl, db, now, DeleteSends(db, ids))
  {
    hide Outlives;
  }

  lemma DeletionCounts(db: Db, ids: set<string>)
    requires ids <= db.sends.Keys
    ensures |ids| == |db.sends| - |DeleteSends(db, ids).sends|
  {
    CountLeft(db.sends, DeleteSends(db, ids).sends, ids);
  }

  lemma CountLeft(m: map<string, SendRow>, left: map<string, SendRow>, ids: set<string>)
    requires ids <= m.Keys && forall id :: id in left <==> id in m && id !in ids
    ensures |ids| == |m| - |left|
  {
    assert left.Keys == m.Keys - ids;
    assert |left.Keys| == |left| && |m.Keys| == |m|;
    assert |m.Keys - ids| == |m.Keys| - |ids|;
  }

  lemma DeletionDrops(db: Db, ids: set<string>)
    requires ids <= db.sends.Keys
    ensures forall key :: key in KeysOf(db, ids) <==> Dropped(db, DeleteSends(db, ids), key)
  {
  }

  /** The blobs are those of `before` whose key some part row of `db` holds. */
  ghost predicate Backed(db: Db, before: map<string, Bytes>, blobs: map<string, Bytes>) {
    && (forall key :: key in blobs <==> key in before && exists k :: k in db.parts && db.parts[k].storageKey == key)
    && (forall key :: key in blobs ==> blobs[key] == before[key])
  }

  /** From any state that satisfies the invariant, so from any reachable or post-crash
      state, one undisturbed sweep at `now` keeps exactly the sends that outlive `now`,
      with their parts and grants as they were, and exactly the blobs of parts that still
      have a row. */
  lemma SweepConverges(cfg: Config, sh: Shared, now: int)
    requires InvShared(cfg, sh)
    ensures Kept(cfg.grantTtl, sh.db, now, ReapedDb(cfg, sh.db, now))
    ensures Backed(ReapedDb(cfg, sh.db, now), sh.blobs,
              LiveBlobs(ReapedDb(cfg, sh.db, now), ReapedBlobs(cfg, sh.db, sh.blobs, now)))
    ensures forall k :: k in ReapedDb(cfg, sh.db, now).parts ==> k.0 in ReapedDb(cfg, sh.db, now).sends
    ensures forall h :: h in ReapedDb(cfg, sh.db, now).grants ==>
        ReapedDb(cfg, sh.db, now).grants[h].sendId in ReapedDb(cfg, sh.db, now).sends
  {
    PartsAndGrantsHaveSends(cfg, sh);
    ReapKeeps(cfg, sh.db, now);
    BlobsAfterSweep(cfg, sh, now);
    hide InvShared, Outlives, ReapedDb, LiveBlobs, ReapedBlobs;
  }

  lemma BlobsAfterSweep(cfg: Config, sh: Shared, now: int)
    requires InvShared(cfg, sh)
    ensures var db := ReapedDb(cfg, sh.db, now);
            var blobs := LiveBlobs(db, ReapedBlobs(cfg, sh.db, sh.blobs, now));
            blobs == LiveBlobs(db, sh.blobs) && Backed(db, sh.blobs, blobs)
  {
    hide InvShared, SelectReapable, DeleteSends;
    var ids, db := ReapedIds(cfg, sh.db, now), ReapedDb(cfg, sh.db, now);
    forall key | key in LiveKeys(db) ensures key !in KeysOf(sh.db, ids) {
      DisjointKeys(cfg, sh, ids, key);
    }
  }

  lemma PartsAndGrantsHaveSends(cfg: Config, sh: Shared)
    requires InvShared(cfg, sh)
    ensures forall k :: k in sh.db.parts ==> k.0 in sh.db.sends
    ensures forall h :: h in sh.db.grants ==> sh.db.grants[h].sendId in sh.db.sends
  {
  }

  /** Two sends never share a storage key. */
  lemma DisjointKeys(cfg: Config, sh: Shared, ids: set<string>, key: string)
    requires InvShared(cfg, sh) && key in LiveKeys(DeleteSends(sh.db, ids))
    ensures key !in KeysOf(sh.db, ids)
  {
    hide SendsOk, CompleteOk, WinnerOk, EventsOk, GrantsOk, BlobsOk, DeliveredOk;
    var j :| j in sh.db.parts && j.0 !in ids && sh.db.parts[j].storageKey == key;
    assert PartOk(sh.db.parts, j, sh.hist.created);
    KeyOwnerOfStorageKey(j.0, j.1);
    forall k | k in sh.db.parts && k.0 in ids ensures sh.db.parts[k].storageKey != key {
      assert PartOk(sh.db.parts, k, sh.hist.created);
      KeyOwnerOfStorageKey(k.0, k.1);
    }
  }

  /** After the sweep the published keys are live keys, every uploaded part that is left
      still has its blob, and a second sweep at the same time finds nothing to do. */
  lemma SweepIsIdempotent(cfg: Config, sh: Shared, now: int)
    requires InvShared(cfg, sh) && Published(sh)
    ensures var db := ReapedDb(cfg, sh.db, now);
            var blobs := LiveBlobs(db, ReapedBlobs(cfg, sh.db, sh.blobs, now));
            && blobs.Keys <= LiveKeys(db)
            && Published(sh.(db := db, blobs := blobs))
            && ReapedIds(cfg, db, now) == {} && ReapedDb(cfg, db, now) == db
            && ReapedBlobs(cfg, db, blobs, now) == blobs && LiveBlobs(db, blobs) == blobs
  {
    hide InvShared, Reapable;
    var db := ReapedDb(cfg, sh.db, now);
    BlobsAfterSweep(cfg, sh, now);
    var blobs := LiveBlobs(db, sh.blobs);
    SecondReap(cfg, sh, now, blobs);
    assert LiveBlobs(db, blobs) == blobs;
    forall k | k in db.parts && db.parts[k].uploadedAt.Some? ensures StorageKey(k.0, k.1) in blobs {
      KeyIsLive(cfg, sh, k);
    }
  }

  lemma SecondReap(cfg: Config, sh: Shared, now: int, blobs: map<string, Bytes>)
    ensures var db := ReapedDb(cfg, sh.db, now);
            && ReapedIds(cfg, db, now) == {} && ReapedDb(cfg, db, now) == db
            && ReapedBlobs(cfg, db, blobs, now) == blobs
  {
    hide Reapable;
    var db := ReapedDb(cfg, sh.db, now);
    assert SelectReapable(db, now, cfg.grantTtl) == map[];
    NothingReaped(cfg, sh.(db := db, blobs := blobs), now);
  }

  lemma KeyIsLive(cfg: Config, sh: Shared, k: PartKey)
    requires InvShared(cfg, sh) && k in sh.db.parts
    ensures sh.db.parts[k].storageKey == StorageKey(k.0, k.1)
  {
    assert PartOk(sh.db.parts, k, sh.hist.created);
  }
}
