/** The coordinator over the two stores, and the worker that sweeps. */
module Coordination {
  import opened Records
  import opened Sql
  import opened BlobOutcome
  import opened Protocol
  import opened Solo
  import opened Stores

  function Elems(keys: seq<string>): set<string> {
    set k | k in keys
  }

  lemma ElemsStep(keys: seq<string>, i: nat)
    requires i < |keys|
    ensures Elems(keys[..i + 1]) == Elems(keys[..i]) + {keys[i]}
    ensures (forall j :: 0 <= j < i ==> keys[j] != keys[i]) ==> keys[i] !in Elems(keys[..i])
    ensures Elems(keys[..|keys|]) == Elems(keys)
  {
    forall k ensures k in Elems(keys[..i + 1]) <==> k in Elems(keys[..i]) + {keys[i]} {
      assert keys[..i + 1] == keys[..i] + [keys[i]];
    }
    assert keys[..|keys|] == keys;
  }

  lemma ElemsEnds(keys: seq<string>)
    ensures Elems(keys[..0]) == {} && Elems(keys[..|keys|]) == (set k | k in keys)
  {
    assert keys[..|keys|] == keys;
  }

  lemma ReapedBlobsAre(cfg: Config, db: Db, blobs: map<string, Bytes>, now: int)
    ensures ReapedBlobs(cfg, db, blobs, now) == blobs - KeysOf(db, ReapedIds(cfg, db, now))
  {
  }

  lemma LiveBlobsAre(db: Db, blobs: map<string, Bytes>)
    ensures Backed(db, blobs, LiveBlobs(db, blobs))
    ensures |blobs.Keys - LiveKeys(db)| == |blobs| - |LiveBlobs(db, blobs)|
  {
    var live := LiveBlobs(db, blobs);
    assert blobs.Keys - LiveKeys(db) == blobs.Keys - live.Keys && live.Keys <= blobs.Keys;
    assert |live| == |live.Keys| && |blobs| == |blobs.Keys|;
  }

  lemma OrphanStep(keys: seq<string>, i: nat, live: set<string>)
    requires i < |keys| && forall j :: 0 <= j < i ==> keys[j] != keys[i]
    ensures var before, after := Elems(keys[..i]) - live, Elems(keys[..i + 1]) - live;
            if keys[i] in live then after == before else after == before + {keys[i]} && |after| == |before| + 1
  {
    ElemsStep(keys, i);
    var before, after := Elems(keys[..i]) - live, Elems(keys[..i + 1]) - live;
    if keys[i] in live { assert after == before; } else { assert after == before + {keys[i]}; }
  }

  lemma MinusOne(m: map<string, Bytes>, gone: set<string>, k: string)
    ensures m - gone - {k} == m - (gone + {k})
  {
  }

  /** The blob store by key. A blob becomes visible only if it is what was declared. */
  class BlobStore {
    var blobs: map<string, Bytes>
    const cfg: Config

    constructor (cfg: Config)
      ensures this.cfg == cfg && blobs == map[]
    {
      this.cfg := cfg;
      blobs := map[];
    }

    method Put(key: string, body: Bytes, want: PartMeta, limit: int) returns (r: Result<int>)
      modifies this
      ensures match PutOutcome(cfg.sha, body, want, limit)
              case Accepted(data) => r == Ok(|data|) && blobs == old(blobs)[key := data]
              case Rejected(e) => r == Err(e) && blobs == old(blobs)
    {
      match PutOutcome(cfg.sha, body, want, limit)
      case Rejected(e) => r := Err(e);
      case Accepted(data) =>
        blobs := blobs[key := data];
        r := Ok(|data|);
    }

    method Open(key: string) returns (r: Result<Bytes>)
      ensures r == if key in blobs then Ok(blobs[key]) else Err(ErrNotFound)
    {
      if key !in blobs { return Err(ErrNotFound); }
      r := Ok(blobs[key]);
    }

    method Delete(key: string)
      modifies this
      ensures blobs == old(blobs) - {key}
    {
      blobs := blobs - {key};
    }

    /** Every stored key, once. */
    method List() returns (keys: seq<string>)
      ensures forall k :: k in keys <==> k in blobs
      ensures forall i, j :: 0 <= i < j < |keys| ==> keys[i] != keys[j]
    {
      keys := [];
      var left := blobs.Keys;
      while left != {}
        invariant left <= blobs.Keys
        invariant forall k :: k in keys <==> k in blobs && k !in left
        invariant forall i, j :: 0 <= i < j < |keys| ==> keys[i] != keys[j]
      {
        var k :| k in left;
        keys := keys + [k];
        left := left - {k};
      }
    }
  }

  // ------------------------------------------------ what the calls do when alone

  /** Tables, blobs and reply after an upload that nothing interrupts. */
  function Uploaded(cfg: Config, db: Db, blobs: map<string, Bytes>, s: string, p: string, body: Bytes, sha: string,
      clock: int)
    : (Db, map<string, Bytes>, Reply)
  {
    if s !in db.sends then (db, blobs, Failed(ErrNotFound))
    else if !db.sends[s].status.Creating? then (db, blobs, Failed(ErrConflict))
    else if (s, p) !in db.parts then (db, blobs, Failed(ErrUnknownPart))
    else
      var row := db.parts[(s, p)];
      if sha != "" && sha != row.sha256 then (db, blobs, Failed(ErrIntegrity))
      else match PutOutcome(cfg.sha, body, PartMeta(p, row.encryptedSize, row.sha256), cfg.maxPartBytes)
        case Rejected(e) => (db, blobs, Failed(e))
        case Accepted(data) =>
          (Sql.MarkUploaded(db, s, p, clock), blobs[StorageKey(s, p) := data], Stored(|data|))
  }

  /** The reply to a download that nothing interrupts. */
  function Downloaded(cfg: Config, db: Db, blobs: map<string, Bytes>, s: string, p: string, token: string,
      clock: int): Reply {
    if !GrantAccepted(db, s, cfg.tokenSha(token), clock) then Failed(ErrInvalidGrant)
    else if (s, p) !in db.parts then Failed(ErrUnknownPart)
    else if StorageKey(s, p) !in blobs then Failed(ErrNotFound)
    else Data(blobs[StorageKey(s, p)])
  }

  lemma UploadAlone(cfg: Config, sh: Shared, sh': Shared, s: string, p: string, body: Bytes, sha: string)
    requires var (db, blobs, _) := Uploaded(cfg, sh.db, sh.blobs, s, p, body, sha, sh.clock);
             sh'.db == db && sh'.blobs == blobs
    ensures var (_, _, reply) := Uploaded(cfg, sh.db, sh.blobs, s, p, body, sha, sh.clock);
            Alone(cfg, sh, PutStatus(s, p, body, sha), sh', reply, 4)
  {
    hide Alone;
    var reply, call := Uploaded(cfg, sh.db, sh.blobs, s, p, body, sha, sh.clock).2, PutStatus(s, p, body, sha);
    var n := ExecPut(cfg, sh, call);
    if n.call.Done? {
      AloneDone(cfg, n, sh', reply, 3);
    } else {
      DeclaredAlone(cfg, sh, sh', s, p, body, sha);
    }
    AloneStep(cfg, sh, call, n, sh', reply, 4);
  }

  lemma DeclaredAlone(cfg: Config, sh: Shared, sh': Shared, s: string, p: string, body: Bytes, sha: string)
    requires s in sh.db.sends && sh.db.sends[s].status.Creating?
    requires var (db, blobs, _) := Uploaded(cfg, sh.db, sh.blobs, s, p, body, sha, sh.clock);
             sh'.db == db && sh'.blobs == blobs
    ensures var (_, _, reply) := Uploaded(cfg, sh.db, sh.blobs, s, p, body, sha, sh.clock);
            Alone(cfg, sh, PutDeclared(s, p, body, sha), sh', reply, 3)
  {
    hide Alone;
    var reply, call := Uploaded(cfg, sh.db, sh.blobs, s, p, body, sha, sh.clock).2, PutDeclared(s, p, body, sha);
    var n := ExecPut(cfg, sh, call);
    if n.call.Done? {
      AloneDone(cfg, n, sh', reply, 2);
    } else {
      var m := ExecPut(cfg, sh, n.call);
      if m.call.Done? {
        AloneDone(cfg, m, sh', reply, 1);
      } else {
        var l := ExecPut(cfg, m.sh, m.call);
        AloneDone(cfg, l, sh', reply, 0);
        AloneStep(cfg, m.sh, m.call, l, sh', reply, 1);
      }
      AloneStep(cfg, sh, n.call, m, sh', reply, 2);
    }
    AloneStep(cfg, sh, call, n, sh', reply, 3);
  }

  lemma DownloadAlone(cfg: Config, sh: Shared, s: string, p: string, token: string)
    ensures Alone(cfg, sh, GetValidate(s, p, token), sh, Downloaded(cfg, sh.db, sh.blobs, s, p, token, sh.clock), 3)
  {
    hide Alone;
    var reply, call := Downloaded(cfg, sh.db, sh.blobs, s, p, token, sh.clock), GetValidate(s, p, token);
    var n := ExecGet(cfg, sh, call);
    if n.call.Done? {
      AloneDone(cfg, n, sh, reply, 2);
    } else {
      var m := ExecGet(cfg, sh, n.call);
      if m.call.Done? {
        AloneDone(cfg, m, sh, reply, 1);
      } else {
        var l := ExecGet(cfg, sh, m.call);
        AloneDone(cfg, l, sh, reply, 0);
        AloneStep(cfg, sh, m.call, l, sh, reply, 1);
      }
      AloneStep(cfg, sh, n.call, m, sh, reply, 2);
    }
    AloneStep(cfg, sh, call, n, sh, reply, 3);
  }

  /** The order of effects in one upload: after a success the blob is there and the part
      is marked; after any refusal neither the tables nor the blobs have changed. */
  lemma UploadEffect(cfg: Config, db: Db, blobs: map<string, Bytes>, s: string, p: string, body: Bytes, sha: string,
      clock: int)
    ensures var (db', blobs', reply) := Uploaded(cfg, db, blobs, s, p, body, sha, clock);
            && (reply.Stored? || reply.Failed?)
            && (reply.Failed? ==> db' == db && blobs' == blobs)
            && (reply.Stored? ==>
                  && (s, p) in db'.parts && db'.parts[(s, p)].uploadedAt == Some(Unix(clock))
                  && StorageKey(s, p) in blobs'
                  && reply.n == |blobs'[StorageKey(s, p)]| == db.parts[(s, p)].encryptedSize
                  && cfg.sha(blobs'[StorageKey(s, p)]) == db.parts[(s, p)].sha256
                  && (forall k :: k in blobs && k != StorageKey(s, p) ==> k in blobs' && blobs'[k] == blobs[k]))
  {
  }

  // -------------------------------------------------------------------- the objects

  class Coordinator {
    const state: SQLiteState
    const blob: BlobStore
    const cfg: Config

    constructor (state: SQLiteState, blob: BlobStore)
      requires state.cfg == blob.cfg
      ensures this.state == state && this.blob == blob && Wired()
    {
      this.state, this.blob, this.cfg := state, blob, state.cfg;
    }

    ghost predicate Wired() {
      state.cfg == cfg && blob.cfg == cfg
    }

    method PutPart(s: string, p: string, body: Bytes, sha: string) returns (r: Result<int>)
      requires Wired()
      modifies state`db, blob
      ensures r.Err? ==> state.db == old(state.db) && blob.blobs == old(blob.blobs)
      ensures s !in old(state.db).sends ==> r == Err(ErrNotFound)
      ensures s in old(state.db).sends && !old(state.db).sends[s].status.Creating? ==> r == Err(ErrConflict)
      ensures s in old(state.db).sends && old(state.db).sends[s].status.Creating? ==>
                if (s, p) !in old(state.db).parts then r == Err(ErrUnknownPart)
                else
                  var row := old(state.db).parts[(s, p)];
                  && (sha != "" && sha != row.sha256 ==> r == Err(ErrIntegrity))
                  && (r.Ok? ==>
                        && state.db == old(state.db).(parts := old(state.db).parts[(s, p) :=
                             row.(uploadedAt := Some(state.clock / 1_000_000_000))])
                        && s + "/" + p in blob.blobs && |blob.blobs[s + "/" + p]| == r.value
                        && blob.blobs == old(blob.blobs)[s + "/" + p := blob.blobs[s + "/" + p]])
                  && (0 <= cfg.maxPartBytes < MAX_INT64 && (sha == "" || sha == row.sha256) ==>
                        if |body| > cfg.maxPartBytes then r == Err(ErrPartTooLarge)
                        else if |body| != row.encryptedSize || cfg.sha(body) != row.sha256 then r == Err(ErrIntegrity)
                        else r == Ok(|body|) && blob.blobs[s + "/" + p] == body)
      ensures (state.db, blob.blobs, if r.Ok? then Stored(r.value) else Failed(r.error))
                == Uploaded(cfg, old(state.db), old(blob.blobs), s, p, body, sha, state.clock)
    {
      var status := state.SendStatusOf(s);
      match status {
        case Err(e) => return Err(e);
        case Ok(st) => if !st.Creating? { return Err(ErrConflict); }
      }
      var declared := state.DeclaredPart(s, p);
      match declared {
        case Err(e) => return Err(e);
        case Ok((stored, _)) =>
          if sha != "" && sha != stored.sha256 { return Err(ErrIntegrity); }
          var want := PartMeta(p, stored.encryptedSize, stored.sha256);
          r := blob.Put(StorageKey(s, p), body, want, cfg.maxPartBytes);
          if r.Err? { return; }
          state.MarkUploaded(s, p);
      }
    }

    method GetPart(s: string, p: string, token: string) returns (r: Result<Bytes>)
      requires Wired()
      ensures var now, hash := state.clock / 1_000_000_000, cfg.tokenSha(token);
              if !(hash in state.db.grants && state.db.grants[hash].sendId == s
                   && now < state.db.grants[hash].expiresAt)
              then r == Err(ErrInvalidGrant)
              else if (s, p) !in state.db.parts then r == Err(ErrUnknownPart)
              else if s + "/" + p !in blob.blobs then r == Err(ErrNotFound)
              else r == Ok(blob.blobs[s + "/" + p])
      ensures (if r.Ok? then Data(r.value) else Failed(r.error))
                == Downloaded(cfg, state.db, blob.blobs, s, p, token, state.clock)
    {
      var ok := state.ValidateGrant(s, cfg.tokenSha(token));
      if !ok { return Err(ErrInvalidGrant); }
      var declared := state.DeclaredPart(s, p);
      if declared.Err? { return Err(declared.error); }
      r := blob.Open(StorageKey(s, p));
    }

    method DeleteExpired(now: int) returns (sends: int)
      requires Wired()
      modifies state`db, blob
      ensures Kept(cfg.grantTtl, old(state.db), now, state.db) && sends == |old(state.db).sends| - |state.db.sends|
      ensures forall key :: key in blob.blobs <==>
                key in old(blob.blobs) && !Dropped(old(state.db), state.db, key)
      ensures forall key :: key in blob.blobs ==> blob.blobs[key] == old(blob.blobs)[key]
      ensures state.db == ReapedDb(cfg, old(state.db), now)
      ensures blob.blobs == ReapedBlobs(cfg, old(state.db), old(blob.blobs), now)
      ensures sends == |ReapedIds(cfg, old(state.db), now)|
    {
      hide ReapedDb, ReapedBlobs, ReapedIds, KeysOf, Elems, Kept, Dropped;
      var keys: seq<string>;
      sends, keys := state.DeleteExpired(now);
      ElemsEnds(keys);
      ReapedBlobsAre(cfg, old(state.db), old(blob.blobs), now);
      for i := 0 to |keys|
        invariant state.db == ReapedDb(cfg, old(state.db), now)
        invariant blob.blobs == old(blob.blobs) - Elems(keys[..i])
      {
        ElemsStep(keys, i);
        MinusOne(old(blob.blobs), Elems(keys[..i]), keys[i]);
        blob.Delete(keys[i]);
      }
    }

    method OrphanSweep() returns (n: int)
      modifies blob
      ensures Backed(state.db, old(blob.blobs), blob.blobs) && n == |old(blob.blobs)| - |blob.blobs|
      ensures blob.blobs == LiveBlobs(state.db, old(blob.blobs))
      ensures n == |old(blob.blobs).Keys - LiveKeys(state.db)|
    {
      hide LiveBlobs, LiveKeys, Elems;
      var live := state.LiveStorageKeys();
      var stored := blob.List();
      ElemsEnds(live);
      ElemsEnds(stored);
      var liveSet := {};
      for i := 0 to |live|
        invariant liveSet == Elems(live[..i]) && blob.blobs == old(blob.blobs)
      {
        ElemsStep(live, i);
        liveSet := liveSet + {live[i]};
      }
      n := 0;
      ghost var gone: set<string> := {};
      assert Elems(stored[..0]) - liveSet == {};
      for i := 0 to |stored|
        invariant gone == Elems(stored[..i]) - liveSet && n == |gone|
        invariant blob.blobs == old(blob.blobs) - gone
      {
        OrphanStep(stored, i, liveSet);
        if stored[i] !in liveSet {
          MinusOne(old(blob.blobs), gone, stored[i]);
          blob.Delete(stored[i]);
          gone := gone + {stored[i]};
          n := n + 1;
        }
      }
      assert Elems(stored[..|stored|]) == old(blob.blobs).Keys;
      OrphansRemoved(state.db, old(blob.blobs));
      LiveBlobsAre(state.db, old(blob.blobs));
    }
  }

  /** What the report callback is told: what was removed, and whether the pass failed. */
  datatype Report = Report(sends: int, orphans: int, failed: bool)

  class Worker {
    const reaper: Coordinator
    const listening: bool          // whether there is a callback
    var reported: Option<Report>  // what it was last told

    constructor (reaper: Coordinator, listening: bool)
      ensures this.reaper == reaper && this.listening == listening && reported == None
    {
      this.reaper, this.listening, reported := reaper, listening, None;
    }

    /** One pass: first the expired sends, then the orphans. Either may fail, and then has
        changed nothing; if the first fails the second is not tried. A pass that neither
        failed nor removed anything is not reported. */
    method Sweep(reapFails: bool, sweepFails: bool)
      requires reaper.Wired()
      modifies this, reaper.state`db, reaper.blob
      ensures reapFails ==>
                && reaper.state.db == old(reaper.state.db) && reaper.blob.blobs == old(reaper.blob.blobs)
                && reported == if listening then Some(Report(0, 0, true)) else old(reported)
      ensures !reapFails ==>
                var reaped := ReapedBlobs(reaper.cfg, old(reaper.state.db), old(reaper.blob.blobs), reaper.state.clock);
                var sends := |ReapedIds(reaper.cfg, old(reaper.state.db), reaper.state.clock)|;
                var orphans := if sweepFails then 0 else |reaped.Keys - LiveKeys(reaper.state.db)|;
                && reaper.state.db == ReapedDb(reaper.cfg, old(reaper.state.db), reaper.state.clock)
                && reaper.blob.blobs == (if sweepFails then reaped else LiveBlobs(reaper.state.db, reaped))
                && reported == if listening && (sends > 0 || orphans > 0 || sweepFails)
                               then Some(Report(sends, orphans, sweepFails)) else old(reported)
    {
      hide ReapedDb, ReapedBlobs, ReapedIds, LiveBlobs, LiveKeys, Kept, Dropped, Backed;
      if reapFails {
        Notify(0, 0, true);
        return;
      }
      var sends := reaper.DeleteExpired(reaper.state.clock);
      var orphans := 0;
      if !sweepFails { orphans := reaper.OrphanSweep(); }
      Notify(sends, orphans, sweepFails);
    }

    method Notify(sends: int, orphans: int, failed: bool)
      modifies this`reported
      ensures reported == if listening && (sends > 0 || orphans > 0 || failed)
                          then Some(Report(sends, orphans, failed)) else old(reported)
    {
      if listening && (sends > 0 || orphans > 0 || failed) { reported := Some(Report(sends, orphans, failed)); }
    }
  }
}
